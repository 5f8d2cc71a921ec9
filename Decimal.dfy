/** Base-10 rendering of integers, as `strconv.FormatInt(t, 10)` produces it for
    the attachment timestamp, and the parse that reads such a rendering back. */
module Decimal {

  datatype Option<+T> = None | Some(value: T)

  predicate IsDigit(c: char) {
    '0' <= c <= '9'
  }

  predicate AllDigits(s: string) {
    forall i :: 0 <= i < |s| ==> IsDigit(s[i])
  }

  function DigitChar(d: nat): (c: char)
    requires d < 10
    ensures IsDigit(c)
  {
    ('0' as int + d) as char
  }

  function DigitValue(c: char): (d: nat)
    requires IsDigit(c)
    ensures d < 10 && DigitChar(d) == c
  {
    c as int - '0' as int
  }

  /** The digits of `n`, most significant first, without leading zeros. */
  function NatToString(n: nat): (s: string)
    ensures |s| > 0 && AllDigits(s)
    decreases n
  {
    if n < 10 then [DigitChar(n)] else NatToString(n / 10) + [DigitChar(n % 10)]
  }

  /** The value of a string of decimal digits (leading zeros allowed). */
  function DigitsValue(s: string): (n: nat)
    requires AllDigits(s)
    decreases |s|
  {
    if s == [] then 0 else DigitsValue(s[..|s| - 1]) * 10 + DigitValue(s[|s| - 1])
  }

  /** Optional sign, then at least one digit: what a base-10 integer parse accepts. */
  predicate IsDecimal(s: string) {
    if |s| > 0 && (s[0] == '-' || s[0] == '+') then |s| > 1 && AllDigits(s[1..])
    else |s| > 0 && AllDigits(s)
  }

  /** A digit string as FormatInt writes a magnitude: no leading zero unless it is "0". */
  predicate IsCanonicalMagnitude(s: string) {
    |s| > 0 && AllDigits(s) && (s[0] == '0' ==> s == "0")
  }

  /** The shape of a base-10 rendering: "0", or an optional '-' and a magnitude
      without leading zeros that is not zero. */
  predicate IsCanonicalDecimal(s: string) {
    if |s| > 0 && s[0] == '-' then IsCanonicalMagnitude(s[1..]) && s[1..] != "0"
    else IsCanonicalMagnitude(s)
  }

  /** strconv.FormatInt(n, 10): a '-' for negative values, then the digits of |n|. */
  function FormatInt(n: int): (s: string)
    ensures |s| > 0
    ensures s[0] == '-' <==> n < 0
  {
    if n < 0 then "-" + NatToString(-n) else NatToString(n)
  }

  /** Reads back a base-10 integer with an optional sign; None when `s` is not one. */
  function ParseInt(s: string): (r: Option<int>)
    ensures r.Some? <==> IsDecimal(s)
  {
    if |s| > 0 && s[0] == '-' then
      if |s| > 1 && AllDigits(s[1..]) then Some(-(DigitsValue(s[1..]) as int)) else None
    else if |s| > 0 && s[0] == '+' then
      if |s| > 1 && AllDigits(s[1..]) then Some(DigitsValue(s[1..])) else None
    else if |s| > 0 && AllDigits(s) then Some(DigitsValue(s))
    else None
  }

  lemma {:induction false} NatToStringCanonical(n: nat)
    ensures IsCanonicalMagnitude(NatToString(n))
    ensures NatToString(n) == "0" <==> n == 0
    decreases n
  {
    if n >= 10 {
      NatToStringCanonical(n / 10);
      var s := NatToString(n);
      assert s == NatToString(n / 10) + [DigitChar(n % 10)];
      assert s[0] == NatToString(n / 10)[0];
      assert |s| > 1;
    }
  }

  lemma {:induction false} DigitsValueOfNatToString(n: nat)
    ensures AllDigits(NatToString(n)) && DigitsValue(NatToString(n)) == n
    decreases n
  {
    NatToStringCanonical(n);
    if n >= 10 {
      DigitsValueOfNatToString(n / 10);
      var s := NatToString(n);
      assert s[..|s| - 1] == NatToString(n / 10);
    }
  }

  /** A digit string whose first digit is not zero has a positive value. */
  lemma {:induction false} LeadingDigitPositive(s: string)
    requires |s| > 0 && AllDigits(s) && s[0] != '0'
    ensures DigitsValue(s) >= 1
    decreases |s|
  {
    if |s| > 1 {
      LeadingDigitPositive(s[..|s| - 1]);
    }
  }

  lemma {:induction false} NatToStringOfDigitsValue(s: string)
    requires IsCanonicalMagnitude(s)
    ensures NatToString(DigitsValue(s)) == s
    decreases |s|
  {
    if |s| > 1 {
      var t := s[..|s| - 1];
      assert s[0] != '0';
      LeadingDigitPositive(t);
      NatToStringOfDigitsValue(t);
      var n := DigitsValue(s);
      assert n / 10 == DigitsValue(t) && n % 10 == DigitValue(s[|s| - 1]);
      assert s == t + [s[|s| - 1]];
    }
  }

  /** Parsing the rendering of any integer gives that integer back. */
  lemma FormatIntParseRoundTrip(n: int)
    ensures ParseInt(FormatInt(n)) == Some(n)
  {
    DigitsValueOfNatToString(if n < 0 then -n else n);
    NatToStringCanonical(if n < 0 then -n else n);
    if n < 0 {
      assert FormatInt(n)[1..] == NatToString(-n);
    }
  }

  /** The rendering is an optional '-' followed by digits, with no leading zero and no "-0". */
  lemma FormatIntCanonical(n: int)
    ensures IsCanonicalDecimal(FormatInt(n))
    ensures AllDigits(if n < 0 then FormatInt(n)[1..] else FormatInt(n))
  {
    NatToStringCanonical(if n < 0 then -n else n);
    if n < 0 {
      assert FormatInt(n)[1..] == NatToString(-n);
    }
  }

  /** Every string of the canonical shape is the rendering of the integer it parses to,
      so FormatInt is a bijection between the integers and the canonical strings. */
  lemma FormatIntOfParse(s: string)
    requires IsCanonicalDecimal(s)
    ensures ParseInt(s).Some? && FormatInt(ParseInt(s).value) == s
  {
    if |s| > 0 && s[0] == '-' {
      var t := s[1..];
      NatToStringOfDigitsValue(t);
      assert t[0] != '0';
      LeadingDigitPositive(t);
      assert s == "-" + t;
    } else {
      NatToStringOfDigitsValue(s);
    }
  }

  /** Distinct instants get distinct timestamps. */
  lemma FormatIntInjective(m: int, n: int)
    requires FormatInt(m) == FormatInt(n)
    ensures m == n
  {
    FormatIntParseRoundTrip(m);
    FormatIntParseRoundTrip(n);
  }
}
