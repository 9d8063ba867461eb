/** The Python string operations the GUI relies on: `str.strip()`, the first and
    the last field of `str.split(sep)`, `str.endswith(...)` and the decimal subset
    of `int(str)` (an optional sign followed by ASCII digits). */
module Text {
  import opened Wrappers

  /** Python's `str.isspace()` for one character, by code point. */
  predicate IsSpace(c: char) {
    var k := c as int;
    (9 <= k <= 13) || (28 <= k <= 32) || k == 0x85 || k == 0xA0 || k == 0x1680
    || (0x2000 <= k <= 0x200A) || k == 0x2028 || k == 0x2029 || k == 0x202F
    || k == 0x205F || k == 0x3000
  }

  predicate AllSpace(s: string) {
    forall i :: 0 <= i < |s| ==> IsSpace(s[i])
  }

  predicate IsAsciiDigit(c: char) {
    '0' <= c <= '9'
  }

  /** A non-empty run of ASCII digits. */
  predicate IsDigits(s: string) {
    |s| > 0 && forall i :: 0 <= i < |s| ==> IsAsciiDigit(s[i])
  }

  /** The literals this model lets `int()` accept: `[+-]?[0-9]+`. */
  predicate IsIntegerText(s: string) {
    IsDigits(s) || (|s| > 1 && (s[0] == '+' || s[0] == '-') && IsDigits(s[1..]))
  }

  predicate EndsWith(s: string, suffix: string) {
    |suffix| <= |s| && s[|s| - |suffix|..] == suffix
  }

  // ---------------------------------------------------------------------------
  // str.strip()

  /** The first index at or after `i` that holds a non-space, or `|s|`. */
  function SkipSpaces(s: string, i: nat): (k: nat)
    requires i <= |s|
    ensures i <= k <= |s|
    ensures forall m :: i <= m < k ==> IsSpace(s[m])
    ensures k < |s| ==> !IsSpace(s[k])
    decreases |s| - i
  {
    if i == |s| || !IsSpace(s[i]) then i else SkipSpaces(s, i + 1)
  }

  /** The end of the text in `s[lo..j]` once its trailing spaces are dropped. */
  function SkipSpacesBack(s: string, lo: nat, j: nat): (k: nat)
    requires lo <= j <= |s|
    ensures lo <= k <= j
    ensures forall m :: k <= m < j ==> IsSpace(s[m])
    ensures k > lo ==> !IsSpace(s[k - 1])
    decreases j - lo
  {
    if j == lo || !IsSpace(s[j - 1]) then j else SkipSpacesBack(s, lo, j - 1)
  }

  /** Python's `s.strip()` with no argument. */
  function Strip(s: string): (r: string)
    ensures r == [] || (!IsSpace(r[0]) && !IsSpace(r[|r| - 1]))
  {
    var lo := SkipSpaces(s, 0);
    s[lo..SkipSpacesBack(s, lo, |s|)]
  }

  /** Stripping removes exactly the surrounding whitespace: whatever text has
      no whitespace at either end is recovered from any padding around it. */
  lemma StripPadded(a: string, t: string, b: string)
    requires AllSpace(a) && AllSpace(b)
    requires t == [] || (!IsSpace(t[0]) && !IsSpace(t[|t| - 1]))
    ensures Strip(a + t + b) == t
  {
    var s := a + t + b;
    assert forall m :: 0 <= m < |a| ==> s[m] == a[m];
    assert forall m :: |a| + |t| <= m < |s| ==> s[m] == b[m - |a| - |t|];
    if t != [] {
      assert s[|a|] == t[0];
      assert s[|a| + |t| - 1] == t[|t| - 1];
      assert s[|a|..|a| + |t|] == t;
    }
  }

  // ---------------------------------------------------------------------------
  // str.split(sep)[0] and str.split(sep)[-1]

  /** The index of the first `sep` at or after `i`, or `|s|`. */
  function FindFrom(s: string, sep: char, i: nat): (k: nat)
    requires i <= |s|
    ensures i <= k <= |s|
    ensures forall m :: i <= m < k ==> s[m] != sep
    ensures k < |s| ==> s[k] == sep
    decreases |s| - i
  {
    if i == |s| || s[i] == sep then i else FindFrom(s, sep, i + 1)
  }

  /** The index just after the last `sep` before `j`, or 0. */
  function FindBackFrom(s: string, sep: char, j: nat): (k: nat)
    requires j <= |s|
    ensures k <= j
    ensures forall m :: k <= m < j ==> s[m] != sep
    ensures k > 0 ==> s[k - 1] == sep
  {
    if j == 0 || s[j - 1] == sep then j else FindBackFrom(s, sep, j - 1)
  }

  /** `s.split(sep)[0]`: the text before the first `sep`, or all of `s`. */
  function FirstField(s: string, sep: char): (r: string)
    ensures |r| <= |s| && r == s[..|r|]
    ensures sep !in r
    ensures |r| < |s| ==> s[|r|] == sep
  {
    s[..FindFrom(s, sep, 0)]
  }

  /** `s.split(sep)[-1]`: the text after the last `sep`, or all of `s`. */
  function LastField(s: string, sep: char): (r: string)
    ensures |r| <= |s| && r == s[|s| - |r|..]
    ensures sep !in r
    ensures |r| < |s| ==> s[|s| - |r| - 1] == sep
  {
    s[FindBackFrom(s, sep, |s|)..]
  }

  /** Whatever follows the first separator does not affect the first field. */
  lemma FirstFieldBefore(x: string, sep: char, rest: string)
    requires sep !in x
    ensures FirstField(x + [sep] + rest, sep) == x
  {
    var s := x + [sep] + rest;
    assert forall m :: 0 <= m < |x| ==> s[m] == x[m];
    assert s[|x|] == sep;
    assert s[..|x|] == x;
  }

  /** Whatever precedes the last separator does not affect the last field:
      the base name of `dir/name` is `name`. */
  lemma LastFieldAfter(rest: string, sep: char, x: string)
    requires sep !in x
    ensures LastField(rest + [sep] + x, sep) == x
  {
    var s := rest + [sep] + x;
    assert forall m :: 0 <= m < |x| ==> s[|rest| + 1 + m] == x[m];
    assert s[|rest|] == sep;
    assert s[|rest| + 1..] == x;
  }

  // ---------------------------------------------------------------------------
  // int(str), decimal subset

  function DigitValue(c: char): nat
    requires IsAsciiDigit(c)
  {
    c as int - '0' as int
  }

  function DigitChar(d: nat): (c: char)
    requires d < 10
    ensures IsAsciiDigit(c) && DigitValue(c) == d
  {
    ('0' as int + d) as char
  }

  /** The value of a string of ASCII digits, most significant first. */
  function DigitsValue(s: string): nat
    requires forall i :: 0 <= i < |s| ==> IsAsciiDigit(s[i])
  {
    if s == [] then 0
    else DigitsValue(s[..|s| - 1]) * 10 + DigitValue(s[|s| - 1])
  }

  /** `int(s)` on a string with no surrounding whitespace: `None` stands for the
      `ValueError` Python raises when `s` is not an integer literal. */
  function ParseInt(s: string): (r: Option<int>)
    ensures r.Some? <==> IsIntegerText(s)
  {
    if IsDigits(s) then Some(DigitsValue(s))
    else if |s| > 1 && s[0] == '-' && IsDigits(s[1..]) then Some(0 - DigitsValue(s[1..]))
    else if |s| > 1 && s[0] == '+' && IsDigits(s[1..]) then Some(DigitsValue(s[1..]))
    else None
  }

  /** Canonical decimal text of a natural number (no leading zeros). */
  function NatText(k: nat): (r: string)
    ensures IsDigits(r)
    ensures |r| > 1 ==> r[0] != '0'
  {
    if k < 10 then [DigitChar(k)]
    else NatText(k / 10) + [DigitChar(k % 10)]
  }

  /** Python's `str(n)` for an integer. */
  function Format(n: int): (r: string)
    ensures IsIntegerText(r)
    ensures !IsSpace(r[0]) && !IsSpace(r[|r| - 1])
  {
    if n < 0 then "-" + NatText(-n) else NatText(n)
  }

  lemma {:induction false} DigitsValueNatText(k: nat)
    ensures DigitsValue(NatText(k)) == k
  {
    var s := NatText(k);
    if k >= 10 {
      assert s[..|s| - 1] == NatText(k / 10);
      DigitsValueNatText(k / 10);
    }
  }

  predicate AllZeros(z: string) {
    forall i :: 0 <= i < |z| ==> z[i] == '0'
  }

  lemma {:induction false} ZerosValue(z: string)
    requires AllZeros(z)
    ensures DigitsValue(z) == 0
  {
    if z != [] {
      ZerosValue(z[..|z| - 1]);
    }
  }

  /** Leading zeros do not change the value of a digit string. */
  lemma {:induction false} LeadingZeros(z: string, t: string)
    requires AllZeros(z)
    requires forall i :: 0 <= i < |t| ==> IsAsciiDigit(t[i])
    ensures DigitsValue(z + t) == DigitsValue(t)
  {
    if t == [] {
      assert z + t == z;
      ZerosValue(z);
    } else {
      var n := |t| - 1;
      assert (z + t)[..|z + t| - 1] == z + t[..n];
      assert (z + t)[|z + t| - 1] == t[n];
      LeadingZeros(z, t[..n]);
    }
  }

  /** The value `int()` gives every literal it accepts: an optional sign,
      any number of leading zeros, then the canonical digits of `k`
      (`007` is 7, `+5` is 5, `-05` is -5, `000` is 0). */
  lemma ParseIntValue(sign: string, z: string, k: nat)
    requires sign == "" || sign == "+" || sign == "-"
    requires AllZeros(z)
    ensures ParseInt(sign + z + NatText(k)) == Some(if sign == "-" then 0 - k else k)
  {
    var d := z + NatText(k);
    assert IsDigits(d);
    LeadingZeros(z, NatText(k));
    DigitsValueNatText(k);
    var s := sign + d;
    assert sign + z + NatText(k) == s;
    if sign == "" {
      assert s == d;
    } else {
      assert s[0] == sign[0] && s[1..] == d;
      assert !IsDigits(s) by { assert !IsAsciiDigit(s[0]); }
    }
  }

  /** Every string of digits is some zeros followed by a canonical number,
      so `ParseIntValue` covers every literal `ParseInt` accepts. */
  lemma {:induction false} DigitsCanonical(d: string) returns (z: string, k: nat)
    requires IsDigits(d)
    ensures AllZeros(z) && d == z + NatText(k)
  {
    if d[0] != '0' || |d| == 1 {
      k := DigitsValue(d);
      z := [];
      CanonicalText(d);
    } else {
      var z', k' := DigitsCanonical(d[1..]);
      z, k := ['0'] + z', k';
      assert d == ['0'] + d[1..];
    }
  }

  /** A digit string without a leading zero is the canonical text of its value. */
  lemma {:induction false} CanonicalText(d: string)
    requires IsDigits(d)
    requires |d| > 1 ==> d[0] != '0'
    ensures NatText(DigitsValue(d)) == d
  {
    var n := |d| - 1;
    if n > 0 {
      var init := d[..n];
      assert init[0] == d[0];
      CanonicalText(init);
      assert DigitsValue(d) / 10 == DigitsValue(init);
      assert DigitsValue(d) % 10 == DigitValue(d[n]);
      assert DigitChar(DigitValue(d[n])) == d[n];
      assert d == init + [d[n]];
    } else {
      assert DigitChar(DigitValue(d[0])) == d[0];
    }
  }

  /** `int(str(n)) == n` for every integer, negative and beyond 100 included. */
  lemma ParseFormat(n: int)
    ensures ParseInt(Format(n)) == Some(n)
  {
    if n < 0 {
      var s := Format(n);
      assert s[1..] == NatText(-n);
      assert !IsDigits(s) by { assert !IsAsciiDigit(s[0]); }
      DigitsValueNatText(-n);
    } else {
      DigitsValueNatText(n);
    }
  }
}
