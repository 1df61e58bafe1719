/** Go's strconv.ParseInt(s, 10, 64), and decimal rendering as its inverse. */
module Strconv {
  import opened Wrappers

  const MaxInt64: int := 0x7FFF_FFFF_FFFF_FFFF
  const MinInt64: int := -0x8000_0000_0000_0000

  predicate IsDigit(c: char) {
    '0' <= c <= '9'
  }

  predicate AllDigits(s: string) {
    forall i :: 0 <= i < |s| ==> IsDigit(s[i])
  }

  function DigitValue(c: char): nat
    requires IsDigit(c)
  {
    c as int - '0' as int
  }

  /** The value of a run of decimal digits, most significant first. */
  function DigitsValue(s: string): nat
    requires AllDigits(s)
  {
    if s == [] then 0 else DigitsValue(s[..|s| - 1]) * 10 + DigitValue(s[|s| - 1])
  }

  /**
   * strconv.ParseInt with base 10 and bit size 64: an optional '+' or '-', then at least
   * one ASCII digit and nothing else (base 10 admits no underscores), with the value in
   * the int64 range. None stands for both the syntax and the range error.
   */
  function ParseInt64(s: string): (r: Option<int>)
    ensures r.Some? ==> MinInt64 <= r.value <= MaxInt64
    ensures r.Some? ==> s != "" && (IsDigit(s[0]) || s[0] == '+' || s[0] == '-')
  {
    if s == "" then None
    else
      var neg := s[0] == '-';
      var digits := if s[0] == '+' || s[0] == '-' then s[1..] else s;
      if digits == [] || !AllDigits(digits) then None
      else
        var v: int := DigitsValue(digits);
        if neg then (if v <= -MinInt64 then Some(-v) else None)
        else if v <= MaxInt64 then Some(v) else None
  }

  function DigitChar(d: nat): (c: char)
    requires d < 10
    ensures IsDigit(c) && DigitValue(c) == d
  {
    ('0' as int + d) as char
  }

  /** The shortest decimal digits of n, as strconv.FormatUint renders them. */
  function NatDigits(n: nat): string
  {
    if n < 10 then [DigitChar(n)] else NatDigits(n / 10) + [DigitChar(n % 10)]
  }

  /** strconv.FormatInt(n, 10): a '-' for negative values, then the digits of |n|. */
  function FormatInt(n: int): string
  {
    if n < 0 then "-" + NatDigits(-n) else NatDigits(n)
  }

  lemma {:induction false} NatDigitsValue(n: nat)
    ensures NatDigits(n) != [] && AllDigits(NatDigits(n)) && DigitsValue(NatDigits(n)) == n
  {
    if n >= 10 {
      NatDigitsValue(n / 10);
      var s := NatDigits(n);
      assert s[..|s| - 1] == NatDigits(n / 10);
    }
  }

  /** Round trip: every int64 rendered in decimal parses back to itself. */
  lemma ParseFormatInt(n: int)
    requires MinInt64 <= n <= MaxInt64
    ensures ParseInt64(FormatInt(n)) == Some(n)
  {
    var s := FormatInt(n);
    if n < 0 {
      NatDigitsValue(-n);
      assert s[0] == '-' && s[1..] == NatDigits(-n);
    } else {
      NatDigitsValue(n);
      assert s == NatDigits(n) && IsDigit(s[0]);
    }
  }

  /** A leading zero does not change the value: "007" and "7" parse alike. */
  lemma LeadingZeroIgnored(s: string)
    requires s != "" && AllDigits(s)
    ensures ParseInt64("0" + s) == ParseInt64(s)
  {
    LeadingZeroValue(s);
  }

  /** Any run of leading zeros does not change the parsed value. */
  lemma {:induction false} LeadingZerosIgnored(zeros: string, s: string)
    requires s != "" && AllDigits(s) && forall i :: 0 <= i < |zeros| ==> zeros[i] == '0'
    ensures AllDigits(zeros + s) && ParseInt64(zeros + s) == ParseInt64(s)
    decreases |zeros|
  {
    if zeros == [] {
      assert zeros + s == s;
    } else {
      var rest := zeros[1..];
      LeadingZerosIgnored(rest, s);
      assert zeros + s == "0" + (rest + s);
      LeadingZeroIgnored(rest + s);
    }
  }

  lemma {:induction false} LeadingZeroValue(s: string)
    requires AllDigits(s)
    ensures AllDigits("0" + s) && DigitsValue("0" + s) == DigitsValue(s)
  {
    if s != [] {
      LeadingZeroValue(s[..|s| - 1]);
      assert ("0" + s)[..|s|] == "0" + s[..|s| - 1];
    }
  }
}
