/** Decimal digits, whitespace, case and joining: the small string algebra the handlers rely on. */
module Text {

  predicate IsDigit(c: char) { '0' <= c <= '9' }

  function DigitValue(c: char): nat
    requires IsDigit(c)
  {
    c as int - '0' as int
  }

  function DigitChar(d: nat): (c: char)
    requires d < 10
    ensures IsDigit(c) && DigitValue(c) == d
  {
    ('0' as int + d) as char
  }

  predicate AllDigits(s: string) { forall i :: 0 <= i < |s| ==> IsDigit(s[i]) }

  function Pow10(n: nat): (p: nat)
    ensures p >= 1
  {
    if n == 0 then 1 else 10 * Pow10(n - 1)
  }

  /** The number a string of decimal digits denotes, as Python's `int(s)` reads it. */
  function DigitsValue(s: string): nat
    requires AllDigits(s)
  {
    if s == [] then 0 else DigitsValue(s[..|s| - 1]) * 10 + DigitValue(s[|s| - 1])
  }

  /** Reading a concatenation: the left part is shifted by one decimal place per digit on the right. */
  lemma {:induction false} DigitsValueAppend(a: string, b: string)
    requires AllDigits(a) && AllDigits(b)
    ensures AllDigits(a + b)
    ensures DigitsValue(a + b) == DigitsValue(a) * Pow10(|b|) + DigitsValue(b)
  {
    AllDigitsConcat(a, b);
    if b == [] {
      assert a + b == a;
    } else {
      var b', c := b[..|b| - 1], b[|b| - 1];
      assert b == b' + [c];
      assert a + b == (a + b') + [c];
      AllDigitsConcat(a, b');
      DigitsValueAppend(a, b');
      DigitsValueSnoc(a + b', c);
      DigitsValueSnoc(b', c);
      ShiftOneDigit(DigitsValue(a + b), DigitsValue(a + b'), DigitsValue(a), Pow10(|b'|), DigitsValue(b'),
                    DigitValue(c), Pow10(|b|), DigitsValue(b));
    }
  }

  /** Reading one more digit: the value so far is shifted by a decimal place. */
  lemma DigitsValueSnoc(s: string, c: char)
    requires AllDigits(s) && IsDigit(c)
    ensures AllDigits(s + [c]) && DigitsValue(s + [c]) == DigitsValue(s) * 10 + DigitValue(c)
  {
    assert (s + [c])[..|s|] == s;
  }

  lemma ShiftOneDigit(whole: int, v: int, x: int, p: int, y: int, d: int, pb: int, vb: int)
    requires whole == v * 10 + d && v == x * p + y && pb == p * 10 && vb == y * 10 + d
    ensures whole == x * pb + vb
  {
  }

  lemma AllDigitsConcat(a: string, b: string)
    requires AllDigits(a) && AllDigits(b)
    ensures AllDigits(a + b)
  {
    forall i | 0 <= i < |a + b| ensures IsDigit((a + b)[i]) {
      if i < |a| { assert (a + b)[i] == a[i]; } else { assert (a + b)[i] == b[i - |a|]; }
    }
  }

  /** A digit string of length n denotes a number below 10^n. */
  lemma {:induction false} DigitsValueBound(s: string)
    requires AllDigits(s)
    ensures DigitsValue(s) < Pow10(|s|)
  {
    if s != [] {
      DigitsValueBound(s[..|s| - 1]);
    }
  }

  function Zeros(k: nat): (s: string)
    ensures |s| == k && AllDigits(s) && DigitsValue(s) == 0
  {
    if k == 0 then "" else
      var z := Zeros(k - 1) + "0";
      assert z[..|z| - 1] == Zeros(k - 1);
      z
  }

  /** The decimal numeral of n without leading zeros, as Python's `str(n)` writes it; reading it back gives n. */
  function NatToString(n: nat): (s: string)
    ensures AllDigits(s) && 1 <= |s|
    ensures DigitsValue(s) == n
    ensures n < 10 ==> |s| == 1
  {
    if n < 10 then [DigitChar(n)]
    else
      var s := NatToString(n / 10) + [DigitChar(n % 10)];
      assert s[..|s| - 1] == NatToString(n / 10);
      s
  }

  /** A number in [10^(k-1), 10^k) has exactly k digits. */
  lemma {:induction false} NatToStringLength(n: nat, k: nat)
    requires 2 <= k && Pow10(k - 1) <= n < Pow10(k)
    ensures |NatToString(n)| == k
  {
    assert n / 10 < Pow10(k - 1);
    assert Pow10(k - 2) <= n / 10;
    if k > 2 {
      NatToStringLength(n / 10, k - 1);
    }
  }

  /** A number below 10^k has at most k digits. */
  lemma {:induction false} NatToStringShort(n: nat, k: nat)
    requires 1 <= k && n < Pow10(k)
    ensures |NatToString(n)| <= k
  {
    if n >= 10 {
      assert n / 10 < Pow10(k - 1);
      NatToStringShort(n / 10, k - 1);
    }
  }

  /** Python's `f"{n:0{width}d}"`: the numeral of n, left-padded with zeros to at least `width` characters. */
  function ZeroPad(n: nat, width: nat): (s: string)
    ensures AllDigits(s) && DigitsValue(s) == n
    ensures 1 <= width && n < Pow10(width) ==> |s| == width
  {
    var digits := NatToString(n);
    if |digits| < width then
      var zeros := Zeros(width - |digits|);
      DigitsValueAppend(zeros, digits);
      assert DigitsValue(zeros) * Pow10(|digits|) == 0;
      zeros + digits
    else
      assert 1 <= width && n < Pow10(width) ==> |digits| == width by {
        if 1 <= width && n < Pow10(width) { NatToStringShort(n, width); }
      }
      digits
  }

  /** Python's `str(i)` for an integer. */
  function IntToString(i: int): string {
    if i < 0 then "-" + NatToString(-i) else NatToString(i)
  }

  /** Python's `sep.join(parts)`. */
  function Join(parts: seq<string>, sep: string): string {
    if |parts| == 0 then ""
    else if |parts| == 1 then parts[0]
    else parts[0] + sep + Join(parts[1..], sep)
  }

  /** Characters Python's `str.isspace` accepts. */
  predicate PyIsSpace(c: char) {
    var n := c as int;
    (9 <= n <= 13) || (28 <= n <= 32) || n == 0x85 || n == 0xA0 || n == 0x1680
    || (0x2000 <= n <= 0x200A) || n == 0x2028 || n == 0x2029 || n == 0x202F
    || n == 0x205F || n == 0x3000
  }

  /** The ASCII whitespace of C's `isspace`: tab, line feed, vertical tab, form feed, carriage return, space. */
  predicate AsciiIsSpace(c: char) {
    '\t' <= c <= '\r' || c == ' '
  }

  /** Characters JavaScript's `String.prototype.trim` drops: WhiteSpace and LineTerminator. */
  predicate JsIsSpace(c: char) {
    var n := c as int;
    (9 <= n <= 13) || n == 32 || n == 0xA0 || n == 0x1680 || (0x2000 <= n <= 0x200A)
    || n == 0x2028 || n == 0x2029 || n == 0x202F || n == 0x205F || n == 0x3000 || n == 0xFEFF
  }

  /** `s` without its leading characters that satisfy `space`. */
  function TrimStart(s: string, space: char -> bool): (t: string)
    ensures |t| <= |s| && t == s[|s| - |t|..]
    ensures t == [] || !space(t[0])
  {
    if s != [] && space(s[0]) then TrimStart(s[1..], space) else s
  }

  /** `s` without its trailing characters that satisfy `space`. */
  function TrimEnd(s: string, space: char -> bool): (t: string)
    ensures |t| <= |s| && t == s[..|t|]
    ensures t == [] || !space(t[|t| - 1])
  {
    if s != [] && space(s[|s| - 1]) then TrimEnd(s[..|s| - 1], space) else s
  }

  function Trim(s: string, space: char -> bool): string {
    TrimEnd(TrimStart(s, space), space)
  }

  /** Python's `str.lower()` on ASCII letters; other characters are kept. */
  function ToLower(s: string): (t: string)
    ensures |t| == |s|
  {
    seq(|s|, i requires 0 <= i < |s| => if 'A' <= s[i] <= 'Z' then (s[i] as int + 32) as char else s[i])
  }

  /**
   * Python's `repr` of a string: single quotes, or double quotes when the text holds a single
   * quote and no double quote. Backslash escapes are not produced.
   */
  function PyRepr(s: string): (r: string)
    ensures |r| == |s| + 2 && r[1..|r| - 1] == s
  {
    if '\'' in s && '"' !in s then "\"" + s + "\"" else "'" + s + "'"
  }

  predicate StartsWith(s: string, prefix: string) {
    |prefix| <= |s| && s[..|prefix|] == prefix
  }
}
