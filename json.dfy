/**
 * Decoded JSON values as the Python handlers and the browser script see them, with the
 * conversions the code applies to them: Python truthiness, `dict.get`, Python's `float()`
 * and JavaScript's `parseFloat`.
 */
module Json {
  import opened Wrappers
  import opened Text

  /** A decoded request value: Python's None, bool, int, float, str, list and dict. */
  datatype Value =
    | Null
    | Bool(b: bool)
    | Int(i: int)
    | Float(r: real)
    | Str(s: string)
    | Arr(items: seq<Value>)
    | Obj(fields: map<string, Value>)

  /** Python truthiness (`if x:` / `not x`). */
  predicate Truthy(v: Value) {
    match v
    case Null => false
    case Bool(b) => b
    case Int(i) => i != 0
    case Float(r) => r != 0.0
    case Str(s) => s != ""
    case Arr(items) => items != []
    case Obj(fields) => fields != map[]
  }

  /** The values whose `str(v)` text is modelled: None, booleans, integers and strings. */
  predicate HasPyStr(v: Value) {
    v.Null? || v.Bool? || v.Int? || v.Str?
  }

  /** Python's `str(v)`, as an f-string shows a value. */
  function PyStr(v: Value): (s: string)
    requires HasPyStr(v)
    ensures v.Str? ==> s == v.s
    ensures v.Int? && v.i >= 0 ==> AllDigits(s) && DigitsValue(s) == v.i
  {
    match v
    case Null => "None"
    case Bool(b) => if b then "True" else "False"
    case Int(i) => IntToString(i)
    case Str(t) => t
  }

  /** `d.get(k)`: the value under k, or None. */
  function Get(d: map<string, Value>, k: string): (v: Value)
    ensures k !in d ==> v == Null
    ensures k in d ==> v == d[k]
  {
    if k in d then d[k] else Null
  }

  /** `d.get(k, default)`: the value under k, even a None, or the default when k is absent. */
  function GetOr(d: map<string, Value>, k: string, default: Value): Value {
    if k in d then d[k] else default
  }

  /* ---------- scanning decimal literals ---------- */

  /** Length of the run of decimal digits at the start of s. */
  function DigitRun(s: string): (n: nat)
    ensures n <= |s|
    ensures forall i :: 0 <= i < n ==> IsDigit(s[i])
    ensures n < |s| ==> !IsDigit(s[n])
  {
    if s != [] && IsDigit(s[0]) then 1 + DigitRun(s[1..]) else 0
  }

  function Pow10Real(e: int): (p: real)
    ensures p > 0.0
  {
    if e >= 0 then Pow10(e) as real else 1.0 / (Pow10(-e) as real)
  }

  /** `0.d1d2...dk` for the digit string d. */
  function FractionValue(d: string): real
    requires AllDigits(d)
  {
    DigitsValue(d) as real / Pow10(|d|) as real
  }

  /** A scanned numeric prefix: its value and how many characters it took; length 0 means no number. */
  datatype Scan = Scan(value: real, length: nat)

  /** An exponent part `(e|E)[+|-]digits` at the start of s; length 0 when there is none. */
  datatype Exponent = Exponent(power: int, length: nat)

  function ExponentScan(s: string): (x: Exponent)
    ensures x.length <= |s|
  {
    if |s| >= 2 && (s[0] == 'e' || s[0] == 'E') then
      var signed := s[1] == '+' || s[1] == '-';
      var rest := if signed then s[2..] else s[1..];
      var k := DigitRun(rest);
      if k == 0 then Exponent(0, 0)
      else
        var m := DigitsValue(rest[..k]) as int;
        Exponent(if s[1] == '-' then -m else m, (if signed then 2 else 1) + k)
    else Exponent(0, 0)
  }

  /** The longest prefix of s of the form `digits[.digits][exponent]` or `.digits[exponent]`. */
  function UnsignedScan(s: string): (r: Scan)
    ensures r.length <= |s|
    ensures r.value >= 0.0
  {
    var a := DigitRun(s);
    var hasDot := a < |s| && s[a] == '.';
    var b := if hasDot then DigitRun(s[a + 1..]) else 0;
    if a == 0 && b == 0 then Scan(0.0, 0)
    else
      var mantissaLength := if hasDot then a + 1 + b else a;
      var m := Mantissa(s[..a], if hasDot then s[a + 1..][..b] else "");
      var e := ExponentScan(s[mantissaLength..]);
      Scale(m, e.power, mantissaLength + e.length)
  }

  /** `whole.fraction` for two digit strings. */
  function Mantissa(whole: string, fraction: string): (m: real)
    requires AllDigits(whole) && AllDigits(fraction)
    ensures m >= 0.0
  {
    DigitsValue(whole) as real + FractionValue(fraction)
  }

  function Scale(m: real, power: int, length: nat): (r: Scan)
    requires m >= 0.0
    ensures r.value >= 0.0 && r.length == length
  {
    var p := Pow10Real(power);
    assert m * p >= 0.0;
    Scan(m * p, length)
  }

  /** An optional sign followed by an unsigned literal. */
  function SignedScan(s: string): (r: Scan)
    ensures r.length <= |s|
  {
    if |s| > 0 && (s[0] == '+' || s[0] == '-') then
      var u := UnsignedScan(s[1..]);
      if u.length == 0 then Scan(0.0, 0)
      else Scan(if s[0] == '-' then -u.value else u.value, u.length + 1)
    else UnsignedScan(s)
  }

  /* ---------- Python's float() ---------- */

  /** Code point n is one of the ten consecutive digits that start at `zero`. */
  predicate InBlock(n: int, zero: int) { zero <= n < zero + 10 }

  /** The number of blocks of ten Unicode decimal digits (general category Nd, Unicode 15.0). */
  const BlockCount: nat := 68

  /**
   * The code point of the digit zero of the k-th block of decimal digits, in increasing order;
   * each block holds the digits 0 to 9 in turn.
   */
  function BlockZero(k: nat): int
    requires k < BlockCount
  {
    if k == 0 then 0x30
    else if k == 1 then 0x660
    else if k == 2 then 0x6F0
    else if k == 3 then 0x7C0
    else if k == 4 then 0x966
    else if k == 5 then 0x9E6
    else if k == 6 then 0xA66
    else if k == 7 then 0xAE6
    else if k == 8 then 0xB66
    else if k == 9 then 0xBE6
    else if k == 10 then 0xC66
    else if k == 11 then 0xCE6
    else if k == 12 then 0xD66
    else if k == 13 then 0xDE6
    else if k == 14 then 0xE50
    else if k == 15 then 0xED0
    else if k == 16 then 0xF20
    else if k == 17 then 0x1040
    else if k == 18 then 0x1090
    else if k == 19 then 0x17E0
    else if k == 20 then 0x1810
    else if k == 21 then 0x1946
    else if k == 22 then 0x19D0
    else if k == 23 then 0x1A80
    else if k == 24 then 0x1A90
    else if k == 25 then 0x1B50
    else if k == 26 then 0x1BB0
    else if k == 27 then 0x1C40
    else if k == 28 then 0x1C50
    else if k == 29 then 0xA620
    else if k == 30 then 0xA8D0
    else if k == 31 then 0xA900
    else if k == 32 then 0xA9D0
    else if k == 33 then 0xA9F0
    else if k == 34 then 0xAA50
    else if k == 35 then 0xABF0
    else if k == 36 then 0xFF10
    else if k == 37 then 0x104A0
    else if k == 38 then 0x10D30
    else if k == 39 then 0x11066
    else if k == 40 then 0x110F0
    else if k == 41 then 0x11136
    else if k == 42 then 0x111D0
    else if k == 43 then 0x112F0
    else if k == 44 then 0x11450
    else if k == 45 then 0x114D0
    else if k == 46 then 0x11650
    else if k == 47 then 0x116C0
    else if k == 48 then 0x11730
    else if k == 49 then 0x118E0
    else if k == 50 then 0x11950
    else if k == 51 then 0x11C50
    else if k == 52 then 0x11D50
    else if k == 53 then 0x11DA0
    else if k == 54 then 0x11F50
    else if k == 55 then 0x16A60
    else if k == 56 then 0x16AC0
    else if k == 57 then 0x16B50
    else if k == 58 then 0x1D7CE
    else if k == 59 then 0x1D7D8
    else if k == 60 then 0x1D7E2
    else if k == 61 then 0x1D7EC
    else if k == 62 then 0x1D7F6
    else if k == 63 then 0x1E140
    else if k == 64 then 0x1E2F0
    else if k == 65 then 0x1E4F0
    else if k == 66 then 0x1E950
    else 0x1FBF0
  }

  /** The zero of the first block from the k-th on that holds code point n, if any. */
  function DecimalZeroFrom(n: int, k: nat): (z: Option<int>)
    requires k <= BlockCount
    ensures z.Some? ==> InBlock(n, z.value)
    decreases BlockCount - k
  {
    if k == BlockCount then None
    else if InBlock(n, BlockZero(k)) then Some(BlockZero(k))
    else DecimalZeroFrom(n, k + 1)
  }

  /** `unicodedata.decimal(c)`: the value of c as a decimal digit of any script, or None. */
  function PyDecimal(c: char): (d: Option<nat>)
    ensures d.Some? ==> d.value < 10
    ensures IsDigit(c) ==> d == Some(DigitValue(c))
  {
    match DecimalZeroFrom(c as int, 0)
    case Some(zero) => Some(c as int - zero)
    case None => None
  }

  /**
   * The first step of CPython's `float(s)`: ASCII characters are kept, other whitespace becomes
   * a space, a decimal digit of any script becomes its ASCII digit, and anything else a '?'
   * that no literal contains.
   */
  function PyAsciiChar(c: char): (a: char)
    ensures a as int < 127
    ensures c as int < 127 ==> a == c
    ensures c as int >= 127 && PyIsSpace(c) ==> a == ' '
    ensures c as int >= 127 && !PyIsSpace(c) && PyDecimal(c).Some? ==> IsDigit(a) && DigitValue(a) == PyDecimal(c).value
  {
    if c as int < 127 then c
    else if PyIsSpace(c) then ' '
    else match PyDecimal(c)
      case Some(d) => DigitChar(d)
      case None => '?'
  }

  function PyAsciiForm(s: string): (t: string)
    ensures |t| == |s|
  {
    if s == [] then [] else [PyAsciiChar(s[0])] + PyAsciiForm(s[1..])
  }

  /**
   * Python's `float(s)` on a string: after the translation to ASCII, surrounding ASCII whitespace
   * is dropped and the rest must be one literal.
   */
  function PyFloatOfString(s: string): (r: Option<real>)
    ensures r.Some? ==> exists t :: t == Trim(PyAsciiForm(s), AsciiIsSpace) && t != [] && SignedScan(t).length == |t|
  {
    var t := Trim(PyAsciiForm(s), AsciiIsSpace);
    var sc := SignedScan(t);
    if 0 < sc.length && sc.length == |t| then Some(sc.value) else None
  }

  /** A string of ASCII characters is its own ASCII form. */
  lemma {:induction false} AsciiFormUnchanged(s: string)
    requires forall i :: 0 <= i < |s| ==> s[i] as int < 127
    ensures PyAsciiForm(s) == s
  {
    if s != [] {
      assert forall i :: 0 <= i < |s[1..]| ==> s[1..][i] == s[i + 1];
      AsciiFormUnchanged(s[1..]);
      assert s == [s[0]] + s[1..];
    }
  }

  /** An ASCII string without surrounding whitespace is read by scanning it whole. */
  lemma PyFloatOfBareAscii(s: string)
    requires s != [] && !AsciiIsSpace(s[0]) && !AsciiIsSpace(s[|s| - 1])
    requires forall i :: 0 <= i < |s| ==> s[i] as int < 127
    ensures PyFloatOfString(s) == if SignedScan(s).length == |s| then Some(SignedScan(s).value) else None
  {
    AsciiFormUnchanged(s);
    assert TrimStart(s, AsciiIsSpace) == s;
    assert TrimEnd(s, AsciiIsSpace) == s;
  }

  /** `float()` of a numeral of ASCII digits is the number it denotes. */
  lemma PyFloatOfDigits(s: string)
    requires s != [] && AllDigits(s)
    ensures PyFloatOfString(s) == Some(DigitsValue(s) as real)
  {
    PyFloatOfBareAscii(s);
    UnsignedScanDigits(s);
  }

  /** A mantissa without a fraction is its whole part. */
  lemma MantissaWhole(w: string)
    requires AllDigits(w)
    ensures Mantissa(w, "") == DigitsValue(w) as real
  {
    assert DigitsValue("") == 0 && Pow10(0) == 1;
    assert FractionValue("") == 0.0;
  }

  /** A numeral of ASCII digits is scanned whole, as the number it denotes. */
  lemma UnsignedScanDigits(s: string)
    requires s != [] && AllDigits(s)
    ensures UnsignedScan(s) == Scan(DigitsValue(s) as real, |s|)
  {
    var a := DigitRun(s);
    assert a == |s|;
    assert s[..a] == s && s[a..] == [];
    assert ExponentScan([]) == Exponent(0, 0);
    var m := DigitsValue(s) as real;
    MantissaWhole(s);
    assert Scale(m, 0, a) == Scan(m, a) by { assert Pow10Real(0) == 1.0; }
  }

  /** `float(str(n))` is n: Python's numeral of a natural number reads back. */
  lemma PyFloatOfNumeral(n: nat)
    ensures PyFloatOfString(NatToString(n)) == Some(n as real)
  {
    PyFloatOfDigits(NatToString(n));
  }

  /** The ASCII form holds ASCII characters only. */
  lemma {:induction false} AsciiFormIsAscii(s: string)
    ensures forall i :: 0 <= i < |PyAsciiForm(s)| ==> PyAsciiForm(s)[i] as int < 127
  {
    if s != [] {
      AsciiFormIsAscii(s[1..]);
      assert PyAsciiForm(s) == [PyAsciiChar(s[0])] + PyAsciiForm(s[1..]);
    }
  }

  /** `float()` reads a string as it reads the string's ASCII form. */
  lemma PyFloatOfAsciiForm(s: string)
    ensures PyFloatOfString(s) == PyFloatOfString(PyAsciiForm(s))
  {
    AsciiFormIsAscii(s);
    AsciiFormUnchanged(PyAsciiForm(s));
  }

  lemma NumeralOfTwelve()
    ensures NatToString(12) == "12"
  {
  }

  /** Devanagari digits read as their ASCII counterparts. */
  lemma PyReadsDevanagari()
    ensures PyFloatOfString("\U{967}\U{968}") == Some(12.0)
  {
    var s := "\U{967}\U{968}";
    assert DecimalZeroFrom(0x967, 0) == Some(0x966) && DecimalZeroFrom(0x968, 0) == Some(0x966);
    assert PyAsciiChar(s[0]) == '1' && PyAsciiChar(s[1]) == '2';
    NumeralOfTwelve();
    assert PyAsciiForm(s) == NatToString(12);
    PyFloatOfAsciiForm(s);
    PyFloatOfNumeral(12);
  }

  /** The information separators U+001C to U+001F are whitespace to `str.isspace` but not to `float()`. */
  lemma PyRefusesSeparator()
    ensures PyIsSpace('\U{1C}')
    ensures PyFloatOfString("\U{1C}1") == None
  {
    ScanOfSeparator();
    PyFloatOfBareAscii("\U{1C}1");
  }

  /**
   * Python's `float(v)`: None when it raises (TypeError for None, lists and dicts, ValueError
   * for a string that is not a literal). `float(True)` is 1.0.
   */
  function PyFloat(v: Value): (r: Option<real>)
    ensures v.Int? ==> r == Some(v.i as real)
    ensures v.Float? ==> r == Some(v.r)
    ensures v.Null? || v.Arr? || v.Obj? ==> r == None
  {
    match v
    case Null => None
    case Bool(b) => Some(if b then 1.0 else 0.0)
    case Int(i) => Some(i as real)
    case Float(x) => Some(x)
    case Str(s) => PyFloatOfString(s)
    case Arr(_) => None
    case Obj(_) => None
  }

  /* ---------- JavaScript's parseFloat ---------- */

  /** A JavaScript number as the validation sees it: finite, or NaN/±Infinity (both rejected alike). */
  datatype JsNumber = Finite(value: real) | NotFinite

  /**
   * The smallest magnitude an IEEE 754 double rounds to infinity, 2^1024 - 2^970: a literal at
   * least this large parses as +-Infinity.
   */
  const DoubleOverflow: real := 179769313486231580793728971405303415079934132710037826936173778980444968292764750946649017977587207096330286416692887910946555547851940402630657488671505820681908902000708383676273854845817711531764475730270069855571366959622842914819860834936475292719074168444365510704342711559699508093042880177904174497792.0

  /** `parseFloat(s)`: leading whitespace is skipped and the longest numeric prefix is read. */
  function JsParseString(s: string): (r: JsNumber)
    ensures r.Finite? ==> SignedScan(TrimStart(s, JsIsSpace)).length > 0
    ensures r.Finite? ==> -DoubleOverflow < r.value < DoubleOverflow
  {
    var t := TrimStart(s, JsIsSpace);
    var signLength := if |t| > 0 && (t[0] == '+' || t[0] == '-') then 1 else 0;
    if StartsWith(t[signLength..], "Infinity") then NotFinite
    else
      var sc := SignedScan(t);
      if sc.length == 0 || sc.value <= -DoubleOverflow || DoubleOverflow <= sc.value then NotFinite
      else Finite(sc.value)
  }

  /**
   * `parseFloat(v)` for a value of the order form, whose fields are typed as numbers and strings.
   * null and booleans read as NaN, as in JavaScript; lists and objects are outside those types
   * and read as NaN here too.
   */
  function JsParseFloat(v: Value): (r: JsNumber)
    ensures v.Int? ==> r == Finite(v.i as real)
    ensures v.Float? ==> r == Finite(v.r)
    ensures r.Finite? ==> v.Int? || v.Float? || v.Str?
  {
    match v
    case Int(i) => Finite(i as real)
    case Float(x) => Finite(x)
    case Str(s) => JsParseString(s)
    case _ => NotFinite
  }

  /** The two readers differ: JavaScript reads a numeric prefix, Python demands the whole string. */
  lemma ParsersDisagreeOnTrailingText()
    ensures JsParseString("12kg") == Finite(12.0)
    ensures PyFloatOfString("12kg") == None
  {
    JsReadsTwelve();
    PyRefusesTwelveKg();
  }

  lemma JsReadsTwelve()
    ensures JsParseString("12kg") == Finite(12.0)
  {
    var s := "12kg";
    ScanOfTwelveKg();
    assert TrimStart(s, JsIsSpace) == s;
    assert !StartsWith(s, "Infinity");
    assert 12.0 < DoubleOverflow;
  }

  lemma PyRefusesTwelveKg()
    ensures PyFloatOfString("12kg") == None
  {
    ScanOfTwelveKg();
    PyFloatOfBareAscii("12kg");
  }

  lemma ScanOfSeparator()
    ensures SignedScan("\U{1C}1").length == 0
  {
    var s := "\U{1C}1";
    assert DigitRun(s) == 0 && s[0] != '.';
  }

  lemma ScanOfTwelveKg()
    ensures SignedScan("12kg") == Scan(12.0, 2)
  {
    var s := "12kg";
    assert DigitRun(s[2..]) == 0;
    assert DigitRun(s[1..]) == 1 by { assert s[1..][1..] == s[2..]; }
    assert DigitRun(s) == 2;
    assert DigitsValue(s[..2]) == 12 by {
      assert s[..2] == "12" && "12"[..1] == "1" && "1"[..0] == "";
      assert DigitsValue("1") == 1;
    }
    assert ExponentScan(s[2..]) == Exponent(0, 0);
    assert Mantissa(s[..2], "") == 12.0;
  }
}
