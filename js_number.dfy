/**
  Reading the amount text fields as numbers: JavaScript's `Number()` (which
  `isNaN` applies to a string), `parseFloat`, and the amount guard the wallet
  and pay screens share. Numbers are exact rationals here; only plain decimal
  numerals (sign, digits, one '.') are recognised.
 */
module JsNumber {
  import opened Options
  import opened JsText

  /** A JavaScript number as the screens observe it: NaN, or a finite value. */
  datatype JsNum = NaN | Num(value: real)

  predicate IsDigit(c: char) {
    '0' <= c <= '9'
  }

  predicate AllDigits(s: string) {
    forall i :: 0 <= i < |s| ==> IsDigit(s[i])
  }

  /** Length of the longest prefix of `s` made of decimal digits. */
  function DigitRun(s: string): (n: nat)
    ensures n <= |s|
  {
    if s != [] && IsDigit(s[0]) then 1 + DigitRun(s[1..]) else 0
  }

  /** The natural number a string of decimal digits denotes. */
  function DigitsValue(ds: string): int {
    if ds == [] then 0
    else 10 * DigitsValue(ds[..|ds| - 1]) + (ds[|ds| - 1] as int - '0' as int)
  }

  /** The value of the digits after a decimal point: ".25" is 0.25. */
  function FractionValue(ds: string): real {
    if ds == [] then 0.0
    else ((ds[0] as int - '0' as int) as real + FractionValue(ds[1..])) / 10.0
  }

  /** The decimal numeral at the head of a text: an optional sign, the digits
      before the point, the digits after it, and how many characters it spans. */
  datatype Numeral = Numeral(negative: bool, whole: string, fraction: string, length: nat)

  /** Reads the longest unsigned numeral at the head of `s`: a run of digits
      and, if a '.' follows, the run of digits after it. */
  function ScanUnsigned(s: string): (n: Numeral)
    ensures n.length <= |s|
  {
    var a := DigitRun(s);
    if a < |s| && s[a] == '.' then
      var f := s[a + 1..];
      var b := DigitRun(f);
      Numeral(false, s[..a], f[..b], a + 1 + b)
    else
      Numeral(false, s[..a], [], a)
  }

  /** Reads the longest numeral at the head of `s`: an optional '+' or '-'
      followed by an unsigned numeral. */
  function Scan(s: string): (n: Numeral)
    ensures n.length <= |s|
  {
    if s != [] && (s[0] == '+' || s[0] == '-') then
      var u := ScanUnsigned(s[1..]);
      Numeral(s[0] == '-', u.whole, u.fraction, 1 + u.length)
    else
      ScanUnsigned(s)
  }

  /** The number a numeral denotes; a numeral with no digit at all ("", "+",
      ".", "-.") is not a number. */
  function Value(n: Numeral): (v: JsNum)
    ensures v.NaN? <==> n.whole == [] && n.fraction == []
  {
    if n.whole == [] && n.fraction == [] then NaN
    else
      var magnitude := DigitsValue(n.whole) as real + FractionValue(n.fraction);
      Num(if n.negative then -magnitude else magnitude)
  }

  /** `Number(s)`: a blank text is 0; otherwise, once leading whitespace is
      skipped, the text must be one numeral followed by nothing but
      whitespace, or the result is NaN. */
  function ToNumber(s: string): JsNum {
    var u := TrimStart(s);
    if u == [] then Num(0.0)
    else
      var n := Scan(u);
      if TrimStart(u[n.length..]) == [] then Value(n) else NaN
  }

  /** `parseFloat(s)`: the numeral at the head of the text once leading
      whitespace is skipped; anything after it is ignored. */
  function ParseFloat(s: string): JsNum {
    Value(Scan(TrimStart(s)))
  }

  /** `x <= 0` in JavaScript: false whenever `x` is NaN. */
  predicate AtMostZero(x: JsNum) {
    x.Num? && x.value <= 0.0
  }

  /** `x > b` in JavaScript, for a number `b`: false whenever `x` is NaN. */
  predicate GreaterThan(x: JsNum, b: real) {
    x.Num? && x.value > b
  }

  /** The guard as written in both screens:
      `!(!amount || isNaN(amount) || parseFloat(amount) <= 0)`. */
  predicate AmountGuardAsWritten(amount: string) {
    !(amount == [] || ToNumber(amount).NaN? || AtMostZero(ParseFloat(amount)))
  }

  /** The amount the screens post, under the guard as evidently intended
      (`!(parseFloat(amount) > 0)` in place of `parseFloat(amount) <= 0`):
      the number the text denotes when it is a positive one, else nothing.
      `PositiveAmountIff` shows the value is also what `parseFloat` reads. */
  function PositiveAmount(amount: string): (r: Option<real>)
    ensures r.Some? ==> r.value > 0.0
    ensures amount == [] ==> r.None?
  {
    var x := ToNumber(amount);
    if x.Num? && x.value > 0.0 then Some(x.value) else None
  }

  /** On a text that is not blank, `Number()` and `parseFloat` agree whenever
      `Number()` gives a number: both read the numeral after the leading
      whitespace. */
  lemma ToNumberAgreesWithParseFloat(s: string)
    requires !AllSpace(s) && ToNumber(s).Num?
    ensures ParseFloat(s) == ToNumber(s)
  {
    TrimStartEmptyIff(s);
  }

  /** A blank text has no numeral for `parseFloat` to read, while `Number()`
      reads it as 0. */
  lemma BlankParsesToNaN(s: string)
    requires AllSpace(s)
    ensures ParseFloat(s) == NaN
    ensures ToNumber(s) == Num(0.0)
  {
    TrimStartEmptyIff(s);
  }

  /** The corrected guard accepts exactly the texts that are not blank and that
      `Number()` reads as a positive number, and posts that number. */
  lemma PositiveAmountIff(s: string)
    ensures PositiveAmount(s).Some? <==> !AllSpace(s) && ToNumber(s).Num? && ToNumber(s).value > 0.0
    ensures PositiveAmount(s).Some? ==> PositiveAmount(s).value == ToNumber(s).value
    ensures PositiveAmount(s).Some? ==> ParseFloat(s) == Num(PositiveAmount(s).value)
  {
    if AllSpace(s) {
      BlankParsesToNaN(s);
    } else if ToNumber(s).Num? {
      ToNumberAgreesWithParseFloat(s);
    }
  }

  /** Empty, non-numeric and non-positive texts are refused. */
  lemma InvalidAmountsRefused(s: string)
    ensures s == [] ==> PositiveAmount(s) == None
    ensures ToNumber(s).NaN? ==> PositiveAmount(s) == None
    ensures ToNumber(s).Num? && ToNumber(s).value <= 0.0 ==> PositiveAmount(s) == None
  {
    PositiveAmountIff(s);
  }

  /** The guard as written lets through exactly what the corrected one does,
      plus every non-empty blank text, for which `parseFloat` gives NaN. */
  lemma AsWrittenGuardAlsoAcceptsBlank(s: string)
    ensures AmountGuardAsWritten(s) <==> PositiveAmount(s).Some? || (s != [] && AllSpace(s))
    ensures s != [] && AllSpace(s) ==> PositiveAmount(s).None? && ParseFloat(s) == NaN
  {
    PositiveAmountIff(s);
    if AllSpace(s) {
      BlankParsesToNaN(s);
    } else if ToNumber(s).Num? {
      ToNumberAgreesWithParseFloat(s);
    }
  }

  /** One space is accepted as an amount by the guard as written, and the
      amount then posted is NaN. */
  lemma OneSpacePassesGuardAsWritten()
    ensures AmountGuardAsWritten(" ") && ParseFloat(" ") == NaN && PositiveAmount(" ") == None
  {
    AsWrittenGuardAlsoAcceptsBlank(" ");
  }

  /** Digit characters, as `String(n)` writes them. */
  function DigitChar(d: nat): (c: char)
    requires d < 10
    ensures IsDigit(c)
  {
    ('0' as int + d) as char
  }

  /** `String(n)` for a natural number. */
  function DecimalString(n: nat): (s: string)
    ensures |s| >= 1 && AllDigits(s)
  {
    if n < 10 then [DigitChar(n)] else DecimalString(n / 10) + [DigitChar(n % 10)]
  }

  /** `String(i)` for an integer, as a template literal writes it. */
  function IntString(i: int): (s: string)
    ensures |s| >= 1
  {
    if i < 0 then "-" + DecimalString(-i) else DecimalString(i)
  }

  /** `String(i)` is a digit run after an optional leading '-'. */
  lemma IntStringShape(i: int)
    ensures forall k :: 1 <= k < |IntString(i)| ==> IsDigit(IntString(i)[k])
    ensures IsDigit(IntString(i)[0]) <==> i >= 0
  {
    if i < 0 {
      var d := DecimalString(-i);
      assert forall k :: 1 <= k < |IntString(i)| ==> IntString(i)[k] == d[k - 1];
    }
  }

  /** Different natural numbers are written differently. */
  lemma DecimalStringInjective(m: nat, n: nat)
    requires DecimalString(m) == DecimalString(n)
    ensures m == n
  {
    DecimalStringValue(m);
    DecimalStringValue(n);
  }

  /** Different integers are written differently. */
  lemma IntStringInjective(a: int, b: int)
    requires IntString(a) == IntString(b)
    ensures a == b
  {
    IntStringShape(a);
    IntStringShape(b);
    if a < 0 && b < 0 {
      assert DecimalString(-a) == IntString(a)[1..] == IntString(b)[1..] == DecimalString(-b);
      DecimalStringInjective(-a, -b);
    } else if a >= 0 && b >= 0 {
      DecimalStringInjective(a, b);
    }
  }

  /** Reading back the digits `String(n)` writes gives `n`. */
  lemma {:induction false} DecimalStringValue(n: nat)
    ensures DigitsValue(DecimalString(n)) == n
  {
    if n >= 10 {
      DecimalStringValue(n / 10);
      var s := DecimalString(n);
      assert s[..|s| - 1] == DecimalString(n / 10);
    }
  }

  /** A text of digits is one digit run. */
  lemma {:induction false} AllDigitsRun(s: string)
    requires AllDigits(s)
    ensures DigitRun(s) == |s|
  {
    if s != [] {
      AllDigitsRun(s[1..]);
    }
  }

  /** A non-empty text of digits is read whole as a numeral. */
  lemma ScanAllDigits(s: string)
    requires |s| >= 1 && AllDigits(s)
    ensures Scan(s) == Numeral(false, s, [], |s|)
  {
    AllDigitsRun(s);
    assert s[..|s|] == s;
  }

  /** `Number(String(n))` and `parseFloat(String(n))` are `n`. */
  lemma ReadDecimalString(n: nat)
    ensures ToNumber(DecimalString(n)) == Num(n as real)
    ensures ParseFloat(DecimalString(n)) == Num(n as real)
  {
    var s := DecimalString(n);
    ScanAllDigits(s);
    DecimalStringValue(n);
    assert TrimStart(s) == s;
    assert s[|s|..] == [];
  }

  /** A positive whole number typed as digits is accepted with its value. */
  lemma WholeAmountAccepted(n: nat)
    requires n > 0
    ensures PositiveAmount(DecimalString(n)) == Some(n as real)
  {
    ReadDecimalString(n);
  }
}
