/**
 * The few JavaScript built-ins the configurator leans on, over exact numbers:
 * a Number that may be NaN, `String.prototype.slice` and `parseInt`.
 */
module JsRuntime {

  /** A JavaScript Number, idealised as an exact real, or NaN. */
  datatype Number = Num(value: real) | NaN

  /** How `slice` reads one of its indices: negative counts from the end; clamped to [0, len]. */
  function RelativeIndex(k: int, len: nat): (r: nat)
    ensures r <= len
    ensures 0 <= k <= len ==> r == k
    ensures -(len as int) <= k < 0 ==> r == len + k
  {
    if k < 0 then (if len + k < 0 then 0 else len + k)
    else if k > len then len
    else k
  }

  /** `s.slice(start, end)`: the characters from `start` up to `end`, empty if they cross. */
  function Slice(s: string, start: int, end: int): (r: string)
    ensures |r| <= |s|
    ensures 0 <= start <= end <= |s| ==> r == s[start..end]
    ensures 0 <= start && -(|s| as int) <= end < 0 && start <= |s| + end ==> r == s[start..|s| + end]
    ensures 0 <= start && -(|s| as int) <= end < 0 && start > |s| + end ==> r == []
    ensures RelativeIndex(start, |s|) >= RelativeIndex(end, |s|) ==> r == []
  {
    var from, to := RelativeIndex(start, |s|), RelativeIndex(end, |s|);
    if from <= to then s[from..to] else []
  }

  /** `slice(0, -n)` drops exactly the last `n` characters. */
  lemma SliceDropsSuffix(p: string, q: string)
    requires |q| > 0
    ensures Slice(p + q, 0, -|q|) == p
  {
  }

  predicate IsDigit(c: char) { '0' <= c <= '9' }

  predicate AllDigits(s: string) { forall i :: 0 <= i < |s| ==> IsDigit(s[i]) }

  function DigitValue(c: char): (d: nat)
    requires IsDigit(c)
    ensures d < 10
  {
    c as int - '0' as int
  }

  function DigitChar(d: nat): (c: char)
    requires d < 10
    ensures IsDigit(c) && DigitValue(c) == d
  {
    ('0' as int + d) as char
  }

  /** The length of the longest prefix of `s` made of decimal digits. */
  function DigitPrefix(s: string): (k: nat)
    ensures k <= |s|
    ensures AllDigits(s[..k])
    ensures k < |s| ==> !IsDigit(s[k])
  {
    if s == [] || !IsDigit(s[0]) then 0
    else
      var k := 1 + DigitPrefix(s[1..]);
      assert s[..k] == [s[0]] + s[1..][..k - 1];
      k
  }

  /** The run of digits ends exactly where the first non-digit stands. */
  lemma {:induction false} DigitPrefixBeforeNonDigit(d: string, c: char, rest: string)
    requires AllDigits(d) && !IsDigit(c)
    ensures DigitPrefix(d + [c] + rest) == |d|
  {
    if d != [] {
      assert (d + [c] + rest)[1..] == d[1..] + [c] + rest;
      DigitPrefixBeforeNonDigit(d[1..], c, rest);
    }
  }

  /** The value of a string of decimal digits, most significant first. */
  function DigitsValue(d: string): nat
    requires AllDigits(d)
  {
    if d == [] then 0
    else DigitsValue(d[..|d| - 1]) * 10 + DigitValue(d[|d| - 1])
  }

  /** The shortest decimal spelling of `n`, as `String(n)` writes a non-negative integer below 10^21. */
  function DecimalString(n: nat): (s: string)
    ensures |s| > 0 && AllDigits(s)
  {
    if n < 10 then [DigitChar(n)]
    else DecimalString(n / 10) + [DigitChar(n % 10)]
  }

  /** Reading back the decimal spelling of `n` gives `n`. */
  lemma {:induction false} DecimalRoundTrip(n: nat)
    ensures DigitsValue(DecimalString(n)) == n
  {
    var s := DecimalString(n);
    if n >= 10 {
      assert s[..|s| - 1] == DecimalString(n / 10);
      DecimalRoundTrip(n / 10);
    }
  }

  /**
   * `parseInt(s)` with the default radix: an optional sign, then the longest run
   * of decimal digits; NaN when that run is empty. Whatever follows the digits
   * (a fraction, a unit) is ignored.
   */
  function ParseInt(s: string): (n: Number)
    ensures n.Num? ==> n.value == n.value.Floor as real
  {
    var negative := |s| > 0 && s[0] == '-';
    var rest := if |s| > 0 && (s[0] == '-' || s[0] == '+') then s[1..] else s;
    var k := DigitPrefix(rest);
    if k == 0 then NaN
    else
      var magnitude: int := DigitsValue(rest[..k]);
      Num((if negative then -magnitude else magnitude) as real)
  }

  /** A string of digits alone parses to its value. */
  lemma ParseIntDigits(d: string)
    requires |d| > 0 && AllDigits(d)
    ensures ParseInt(d) == Num(DigitsValue(d) as real)
  {
    assert d[..|d|] == d;
  }

  /** Parsing stops at the first character that is not a digit: "12.5" reads as 12. */
  lemma ParseIntStopsAtNonDigit(d: string, c: char, rest: string)
    requires |d| > 0 && AllDigits(d) && !IsDigit(c)
    ensures ParseInt(d + [c] + rest) == ParseInt(d)
  {
    var s := d + [c] + rest;
    assert s[0] == d[0];
    assert s[..|d|] == d;
    DigitPrefixBeforeNonDigit(d, c, rest);
    ParseIntDigits(d);
  }

  /** With nothing that reads as a digit up front, `parseInt` yields NaN. */
  lemma ParseIntNaN(s: string)
    requires s == [] || (!IsDigit(s[0]) && s[0] != '-' && s[0] != '+')
    ensures ParseInt(s) == NaN
  {
  }
}
