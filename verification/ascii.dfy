/**
 * The ASCII character classes, runs of them, and the signed 64-bit integer
 * conversions of the Rust standard library that the lexers rely on: `char::is_ascii_whitespace`,
 * `is_ascii_alphabetic`, `is_ascii_digit`, `i64::from_str` and the decimal
 * rendering of an `i64` by `Display`.
 */
module Ascii {
  import opened Outcomes

  const I64_MIN: int := -0x8000_0000_0000_0000
  const I64_MAX: int := 0x7FFF_FFFF_FFFF_FFFF

  /** Rust's `i64`. */
  type i64 = x: int | I64_MIN <= x <= I64_MAX

  /** `is_ascii_whitespace`: space, tab, line feed, form feed and carriage return (not vertical tab). */
  predicate IsWhitespace(c: char)
    ensures IsWhitespace(c) ==> c <= ' ' && c != '\U{000B}'
  {
    c == ' ' || c == '\t' || c == '\n' || c == '\U{000C}' || c == '\r'
  }

  predicate IsDigit(c: char) {
    '0' <= c <= '9'
  }

  predicate IsAlphabetic(c: char) {
    ('A' <= c <= 'Z') || ('a' <= c <= 'z')
  }

  /** `is_identifier_char`, defined identically by both lexers: a letter or an underscore. */
  predicate IsIdentifierChar(c: char)
    ensures IsIdentifierChar(c) ==> !IsWhitespace(c) && !IsDigit(c)
  {
    IsAlphabetic(c) || c == '_'
  }

  /** The index of the first non-whitespace character at or after `pos`, or `|s|` if there is none. */
  function SkipWhitespace(s: seq<char>, pos: nat): (p: nat)
    requires pos <= |s|
    ensures pos <= p <= |s|
    ensures forall i :: pos <= i < p ==> IsWhitespace(s[i])
    ensures p < |s| ==> !IsWhitespace(s[p])
    decreases |s| - pos
  {
    if pos == |s| || !IsWhitespace(s[pos]) then pos else SkipWhitespace(s, pos + 1)
  }

  /** The end of the longest run of characters satisfying `cond` that starts at `pos`. */
  function RunEnd(s: seq<char>, pos: nat, cond: char -> bool): (e: nat)
    requires pos <= |s|
    ensures pos <= e <= |s|
    ensures forall i :: pos <= i < e ==> cond(s[i])
    ensures e < |s| ==> !cond(s[e])
    decreases |s| - pos
  {
    if pos == |s| || !cond(s[pos]) then pos else RunEnd(s, pos + 1, cond)
  }

  /** Appending the byte at `b` to a buffer holding `s[a..b]` after `prefix` gives `s[a..b + 1]` after it. */
  lemma BufferGrows(prefix: string, s: seq<char>, a: nat, b: nat)
    requires a <= b < |s|
    ensures (prefix + s[a..b]) + [s[b]] == prefix + s[a..b + 1]
  {
    assert s[a..b + 1] == s[a..b] + [s[b]];
  }

  predicate AllDigits(s: string) {
    forall i :: 0 <= i < |s| ==> IsDigit(s[i])
  }

  function DigitValue(c: char): (d: nat)
    requires IsDigit(c)
    ensures d < 10
  {
    c as int - '0' as int
  }

  function DigitChar(d: nat): (c: char)
    requires d < 10
    ensures IsDigit(c) && DigitValue(c) == d
  {
    ('0' as int + d) as char
  }

  /** The value of a string of decimal digits, most significant first. */
  function DigitsValue(s: string): nat
    requires AllDigits(s)
  {
    if |s| == 0 then 0 else 10 * DigitsValue(s[..|s| - 1]) + DigitValue(s[|s| - 1])
  }

  function Pow10(n: nat): (r: nat)
    ensures r >= 1
  {
    if n == 0 then 1 else 10 * Pow10(n - 1)
  }

  /**
   * A string of `k` digits is worth less than `10^k`, and at least `10^(k-1)`
   * when its first digit is not zero.
   */
  lemma {:induction false} DigitsValueBounds(s: string)
    requires AllDigits(s)
    ensures DigitsValue(s) < Pow10(|s|)
    ensures |s| > 0 && s[0] != '0' ==> Pow10(|s| - 1) <= DigitsValue(s)
  {
    if |s| > 0 {
      var prefix := s[..|s| - 1];
      DigitsValueBounds(prefix);
      if |s| > 1 {
        assert prefix[0] == s[0];
      }
    }
  }

  /** Twenty digits or more without a leading zero never fit in an `i64`. */
  lemma LongDigitRunOverflows(s: string)
    requires AllDigits(s) && |s| >= 20 && s[0] != '0'
    ensures DigitsValue(s) > I64_MAX
  {
    DigitsValueBounds(s);
    PowMonotone(19, |s| - 1);
    Pow10Nineteen();
  }

  lemma Pow10Nineteen()
    ensures Pow10(19) == 10_000_000_000_000_000_000
  {
    assert Pow10(4) == 10_000;
    assert Pow10(8) == 100_000_000;
    assert Pow10(12) == 1_000_000_000_000;
    assert Pow10(16) == 10_000_000_000_000_000;
  }

  lemma {:induction false} PowMonotone(m: nat, n: nat)
    requires m <= n
    ensures Pow10(m) <= Pow10(n)
    decreases n
  {
    if m < n {
      PowMonotone(m, n - 1);
    }
  }

  /**
   * `i64::from_str`: an optional sign followed by at least one decimal digit and
   * nothing else, whose value lies in the `i64` range.
   */
  function ParseI64(s: string): (r: Option<i64>)
    ensures r.Some? ==> |s| > 0
    ensures |s| > 0 && IsDigit(s[0]) ==>
      (r.Some? <==> AllDigits(s) && DigitsValue(s) <= I64_MAX) &&
      (r.Some? ==> r.value == DigitsValue(s))
  {
    if |s| == 0 then None
    else if (s[0] == '+' || s[0] == '-') && |s| == 1 then None
    else
      var negative := s[0] == '-';
      var digits := if s[0] == '+' || s[0] == '-' then s[1..] else s;
      if !AllDigits(digits) then None
      else
        var magnitude: int := DigitsValue(digits);
        var v := if negative then -magnitude else magnitude;
        if I64_MIN <= v <= I64_MAX then Some(v) else None
  }

  /** The canonical decimal rendering of a natural number: no sign, no leading zero. */
  function NatToDecimal(n: nat): (s: string)
    ensures |s| > 0 && AllDigits(s)
    ensures DigitsValue(s) == n
    ensures s[0] == '0' ==> n == 0
  {
    if n < 10 then [DigitChar(n)]
    else
      var prefix := NatToDecimal(n / 10);
      var s := prefix + [DigitChar(n % 10)];
      assert s[..|s| - 1] == prefix;
      s
  }

  /** How `Display` renders an `i64`: a minus sign before the magnitude when negative. */
  function I64ToDecimal(n: i64): (s: string)
    ensures ParseI64(s) == Some(n)
    ensures n >= 0 ==> s == NatToDecimal(n)
  {
    var m: int := n;
    if m < 0 then
      var s := "-" + NatToDecimal(-m);
      assert s[1..] == NatToDecimal(-m);
      s
    else NatToDecimal(m)
  }
}
