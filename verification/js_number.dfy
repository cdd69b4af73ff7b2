/** JavaScript's global `parseInt` with no radix argument, which the server
    uses (`parseInt(req.query.page)`) to read a page number. The result is `None` where JavaScript gives `NaN`. */
module JsNumber {
  import opened Js

  /** The white space `parseInt` skips before the number (the Unicode space
      separators other than no-break space are not included). */
  predicate IsWhiteSpace(c: char) {
    c == ' ' || c == '\t' || c == '\n' || c == '\r' ||
    c as int == 0x0B || c as int == 0x0C || c as int == 0xA0 ||
    c as int == 0xFEFF || c as int == 0x2028 || c as int == 0x2029
  }

  /** The string with its leading white space removed. */
  function TrimStart(s: string): (r: string)
    ensures |r| <= |s| && r == s[|s| - |r|..]
    ensures r == [] || !IsWhiteSpace(r[0])
    ensures forall i :: 0 <= i < |s| - |r| ==> IsWhiteSpace(s[i])
  {
    if s != [] && IsWhiteSpace(s[0]) then TrimStart(s[1..]) else s
  }

  /** The value of a digit character in bases up to 16. */
  function DigitValue(c: char): Option<nat> {
    if '0' <= c <= '9' then Some(c as int - '0' as int)
    else if 'a' <= c <= 'f' then Some(c as int - 'a' as int + 10)
    else if 'A' <= c <= 'F' then Some(c as int - 'A' as int + 10)
    else None
  }

  predicate IsDigit(c: char, radix: nat) {
    DigitValue(c).Some? && DigitValue(c).value < radix
  }

  /** The length of the longest prefix of `s` made of digits of `radix`. */
  function DigitPrefixLength(s: string, radix: nat): (n: nat)
    ensures n <= |s|
    ensures forall i :: 0 <= i < n ==> IsDigit(s[i], radix)
    ensures n < |s| ==> !IsDigit(s[n], radix)
  {
    if s != [] && IsDigit(s[0], radix) then 1 + DigitPrefixLength(s[1..], radix) else 0
  }

  /** The number a string of digits denotes in `radix`, most significant first. */
  function DigitsValue(ds: string, radix: nat): nat
    requires forall i :: 0 <= i < |ds| ==> IsDigit(ds[i], radix)
  {
    if ds == [] then 0
    else
      var init := ds[..|ds| - 1];
      assert forall i :: 0 <= i < |init| ==> init[i] == ds[i];
      assert IsDigit(ds[|ds| - 1], radix);
      var high := DigitsValue(init, radix);
      MulMonotone(0, high, radix);
      high * radix + DigitValue(ds[|ds| - 1]).value
  }

  /** `parseInt(s)`: skip white space, read an optional sign, switch to base 16
      after a `0x` or `0X` prefix, then read the longest run of digits; no
      digit at all gives `NaN`. Characters after the digits are ignored. */
  function ParseInt(s: string): Option<int> {
    var t := TrimStart(s);
    var negative := t != [] && t[0] == '-';
    match ParseUnsigned(Unsigned(t))
    case None => None
    case Some(v) => Some(if negative then 0 - v else v)
  }

  /** The text after an optional leading sign. */
  function Unsigned(t: string): (u: string)
    ensures |u| <= |t|
  {
    if t != [] && (t[0] == '-' || t[0] == '+') then t[1..] else t
  }

  /** The magnitude read from unsigned text: hexadecimal digits after `0x`
      or `0X`, decimal digits otherwise. */
  function ParseUnsigned(u: string): Option<nat> {
    var hex := |u| >= 2 && u[0] == '0' && (u[1] == 'x' || u[1] == 'X');
    if hex then ReadDigits(u[2..], 16) else ReadDigits(u, 10)
  }

  /** The value of the longest run of digits at the start of `body`, or
      `None` when it does not start with a digit. */
  function ReadDigits(body: string, radix: nat): (r: Option<nat>)
    ensures r.None? <==> body == [] || !IsDigit(body[0], radix)
  {
    var n := DigitPrefixLength(body, radix);
    if n == 0 then None else Some(DigitsValue(body[..n], radix))
  }

  /** `parseInt(v)` for a query parameter that may be missing: a missing value
      is converted to the string "undefined" first. */
  function ParseIntParam(v: Option<string>): Option<int> {
    ParseInt(if v.Some? then v.value else "undefined")
  }

  /** The decimal text of a natural number, without leading zeros. */
  function NaturalString(n: nat): (s: string)
    ensures s != []
    ensures forall i :: 0 <= i < |s| ==> '0' <= s[i] <= '9'
    ensures s[0] == '0' ==> n == 0 && s == "0"
  {
    var d := ['0' + ((n % 10) as char)];
    if n < 10 then d else NaturalString(n / 10) + d
  }

  /** The decimal text of an integer, as a page link or a user would type it. */
  function DecimalString(n: int): string {
    if n < 0 then "-" + NaturalString(-n) else NaturalString(n)
  }

  lemma {:induction false} NaturalStringValue(n: nat)
    ensures forall i :: 0 <= i < |NaturalString(n)| ==> IsDigit(NaturalString(n)[i], 10)
    ensures DigitsValue(NaturalString(n), 10) == n
  {
    var s := NaturalString(n);
    forall i | 0 <= i < |s| ensures IsDigit(s[i], 10) {
      assert '0' <= s[i] <= '9';
    }
    if n >= 10 {
      NaturalStringValue(n / 10);
      assert s[..|s| - 1] == NaturalString(n / 10);
    }
  }

  /** A run of decimal digits with no leading zero is read whole, in base 10. */
  lemma DigitRunPrefix(u: string)
    requires u != []
    requires forall i :: 0 <= i < |u| ==> IsDigit(u[i], 10)
    requires u[0] == '0' ==> |u| == 1
    ensures |u| >= 2 ==> u[0] != '0'
    ensures DigitPrefixLength(u, 10) == |u|
    ensures u[..|u|] == u
  {
  }

  /** A clean run of decimal digits, after an optional minus sign, is read as
      its decimal value. */
  lemma ParseDigitRun(s: string, u: string, negative: bool)
    requires u != []
    requires forall i :: 0 <= i < |u| ==> IsDigit(u[i], 10)
    requires u[0] == '0' ==> |u| == 1
    requires s == if negative then "-" + u else u
    ensures ParseInt(s).Some?
    ensures ParseInt(s).value == if negative then 0 - DigitsValue(u, 10) else DigitsValue(u, 10)
  {
    DigitRunPrefix(u);
    assert ParseUnsigned(u) == Some(DigitsValue(u, 10));
    assert !IsWhiteSpace(s[0]);
    assert TrimStart(s) == s;
    assert s[0] == '-' <==> negative;
    if negative {
      assert s[1..] == u;
    }
    assert Unsigned(s) == u;
  }

  /** Reading back the decimal text of any integer gives that integer. */
  lemma ParseDecimalRoundTrip(n: int)
    ensures ParseInt(DecimalString(n)) == Some(n)
  {
    var m: nat := if n < 0 then -n else n;
    var digits := NaturalString(m);
    NaturalStringValue(m);
    ParseDigitRun(DecimalString(n), digits, n < 0);
  }

  /** Text that has no digit where the number should start is `NaN`. */
  lemma ParseNaN(s: string)
    requires var u := Unsigned(TrimStart(s)); u == [] || !IsDigit(u[0], 10)
    ensures ParseInt(s) == None
  {
  }

  /** A missing query parameter parses to `NaN`. */
  lemma MissingParamIsNaN()
    ensures ParseIntParam(None) == None
  {
    var s := "undefined";
    assert TrimStart(s) == s;
    assert !IsDigit(s[0], 10);
  }
}
