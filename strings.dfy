/**
 * The few JavaScript string operations the client's decisions rest on:
 * `String.prototype.trim`, the whitespace class `\s`, `bigint.toString()`
 * and the `message || fallback` idiom used for error texts.
 */
module Strings {
  import opened Backend

  /**
   * ECMAScript WhiteSpace and LineTerminator code points: the set that both
   * `trim()` and the regular-expression class `\s` strip or match. The
   * space separators (general category Zs) are listed out explicitly.
   */
  predicate IsWhitespace(c: char) {
    || c == '\t' || c == '\n' || c == '\U{B}' || c == '\U{C}' || c == '\r'
    || c == ' ' || c == '\U{A0}' || c == '\U{1680}'
    || ('\U{2000}' <= c <= '\U{200A}')
    || c == '\U{2028}' || c == '\U{2029}' || c == '\U{202F}' || c == '\U{205F}'
    || c == '\U{3000}' || c == '\U{FEFF}'
  }

  /** True exactly when `s.trim()` is the empty, falsy string. */
  predicate IsBlank(s: string) {
    forall i :: 0 <= i < |s| ==> IsWhitespace(s[i])
  }

  predicate IsDigit(c: char) {
    '0' <= c <= '9'
  }

  predicate IsDigits(s: string) {
    forall i :: 0 <= i < |s| ==> IsDigit(s[i])
  }

  /** Length of the longest whitespace prefix. */
  function LeadingBlank(s: string): (n: nat)
    ensures n <= |s|
    ensures IsBlank(s[..n])
    ensures n < |s| ==> !IsWhitespace(s[n])
  {
    if s == [] || !IsWhitespace(s[0]) then 0
    else
      var m := LeadingBlank(s[1..]);
      assert s[..1 + m] == [s[0]] + s[1..][..m];
      1 + m
  }

  /** Length of the longest whitespace suffix. */
  function TrailingBlank(s: string): (n: nat)
    ensures n <= |s|
    ensures IsBlank(s[|s| - n..])
    ensures n < |s| ==> !IsWhitespace(s[|s| - n - 1])
  {
    if s == [] || !IsWhitespace(s[|s| - 1]) then 0
    else
      var init := s[..|s| - 1];
      var m := TrailingBlank(init);
      assert s[|s| - (1 + m)..] == init[|init| - m..] + [s[|s| - 1]];
      1 + m
  }

  /**
   * `s.trim()`: `s` with its whitespace prefix and suffix removed. The result
   * is the slice of `s` that starts after the leading whitespace, is followed
   * only by whitespace, and neither starts nor ends with whitespace.
   */
  function Trim(s: string): (r: string)
    ensures IsBlank(s) <==> r == []
    ensures r != [] ==> !IsWhitespace(r[0]) && !IsWhitespace(r[|r| - 1])
    ensures LeadingBlank(s) + |r| <= |s|
    ensures r == s[LeadingBlank(s)..LeadingBlank(s) + |r|]
    ensures IsBlank(s[LeadingBlank(s) + |r|..])
  {
    var i := LeadingBlank(s);
    var t := s[i..];
    var j := TrailingBlank(t);
    assert IsBlank(s) ==> t == [];
    assert t[..|t| - j] == [] ==> IsBlank(s) by {
      if t[..|t| - j] == [] {
        forall k | 0 <= k < |s| ensures IsWhitespace(s[k]) {
          assert s[k] == s[..i][k];
        }
      }
    }
    assert s[i + (|t| - j)..] == t[|t| - j..];
    t[..|t| - j]
  }

  /** Trimming a trimmed string changes nothing. */
  lemma TrimIdempotent(s: string)
    ensures Trim(Trim(s)) == Trim(s)
  {
    var r := Trim(s);
    if r != [] {
      assert LeadingBlank(r) == 0;
      assert TrailingBlank(r) == 0;
    }
  }

  function DigitChar(d: nat): (c: char)
    requires d < 10
    ensures IsDigit(c)
  {
    (48 + d) as char
  }

  function DigitValue(c: char): (d: nat)
    requires IsDigit(c)
    ensures d < 10 && DigitChar(d) == c
  {
    c as int - 48
  }

  /**
   * `n.toString()` for a non-negative `bigint`: the canonical decimal
   * numeral, which never has a superfluous leading zero.
   */
  function DecimalString(n: nat): (r: string)
    ensures r != [] && IsDigits(r)
    ensures r[0] == '0' ==> n == 0 && r == "0"
    decreases n
  {
    if n < 10 then [DigitChar(n)]
    else DecimalString(n / 10) + [DigitChar(n % 10)]
  }

  /** Reads a string of decimal digits back as a number. */
  function ParseDecimal(s: string): (n: nat)
    requires IsDigits(s)
    decreases |s|
  {
    if s == [] then 0
    else 10 * ParseDecimal(s[..|s| - 1]) + DigitValue(s[|s| - 1])
  }

  /** Reading back the numeral of `n` gives `n`. */
  lemma {:induction false} ParseDecimalString(n: nat)
    ensures ParseDecimal(DecimalString(n)) == n
    decreases n
  {
    var r := DecimalString(n);
    if n < 10 {
      assert r[..|r| - 1] == [];
      assert DigitValue(DigitChar(n)) == n;
    } else {
      assert r[..|r| - 1] == DecimalString(n / 10);
      assert DigitValue(DigitChar(n % 10)) == n % 10;
      ParseDecimalString(n / 10);
    }
  }

  /** Distinct ids have distinct decimal strings. */
  lemma DecimalStringInjective(a: nat, b: nat)
    ensures DecimalString(a) == DecimalString(b) <==> a == b
  {
    if DecimalString(a) == DecimalString(b) {
      ParseDecimalString(a);
      ParseDecimalString(b);
    }
  }

  /**
   * `value || fallback` on an optional string: the value when there is a
   * non-empty one, the fallback otherwise (`undefined` and `''` are falsy).
   */
  function StringOr(value: Option<string>, fallback: string): (r: string)
    ensures r == fallback || (value.Some? && r == value.value)
    ensures r == [] ==> fallback == []
    ensures (value.Some? && value.value != []) <==> (value.Some? && r == value.value && r != [])
  {
    if value.Some? && value.value != [] then value.value else fallback
  }
}
