/**
  The few JavaScript runtime notions the page scripts depend on: string-or-nothing
  values as the DOM hands them out, truthiness and `||`, the exceptions a handler
  can throw, `String(n)` for integer numbers, and `parseInt(s, 10)`.
 */
module JsValues {

  /** A value that is a string, `null` (an absent attribute, an empty storage slot)
      or `undefined` (a missing object property). */
  datatype JsValue = Undefined | Null | Str(s: string)

  /** The exceptions the modelled handlers can throw or pass on; a throw ends the handler.
      `Error` is a plain `new Error(message)`, such as the word request's rejection. */
  datatype JsError = TypeError | Error(message: string)

  /** The completion of a handler or lookup: a value, or a thrown exception. */
  datatype Result<T> = Ok(value: T) | Throw(error: JsError)

  /** JavaScript truthiness of a string-or-nothing value. */
  predicate Truthy(v: JsValue) {
    v.Str? && v.s != ""
  }

  /** `a || b`: the left operand when it is truthy, otherwise the right one. */
  function Or(a: JsValue, b: JsValue): (r: JsValue)
    ensures Truthy(a) ==> r == a
    ensures !Truthy(a) ==> r == b
    ensures Truthy(r) <==> Truthy(a) || Truthy(b)
  {
    if Truthy(a) then a else b
  }

  /** `String(v)`, which is also what a template literal and a `dataset` write produce. */
  function ToStr(v: JsValue): string {
    match v
    case Undefined => "undefined"
    case Null => "null"
    case Str(s) => s
  }

  /** `element.getAttribute(name)`: the attribute's value, or `null` when it is absent. */
  function Attribute(attributes: map<string, string>, name: string): JsValue {
    if name in attributes then Str(attributes[name]) else Null
  }

  // ---------------------------------------------------------------------------
  // Decimal numerals

  predicate IsDigit(c: char) {
    '0' <= c <= '9'
  }

  predicate AllDigits(s: string) {
    forall i :: 0 <= i < |s| ==> IsDigit(s[i])
  }

  function DigitChar(d: nat): char
    requires d < 10
  {
    ('0' as int + d) as char
  }

  function DigitValue(c: char): nat
    requires IsDigit(c)
  {
    c as int - '0' as int
  }

  /** The decimal numeral of `n`: digits only, most significant first, no leading zero. */
  function Numeral(n: nat): (s: string)
    ensures |s| > 0 && AllDigits(s)
    ensures s[0] != '0' || n == 0
  {
    if n < 10 then [DigitChar(n)] else Numeral(n / 10) + [DigitChar(n % 10)]
  }

  /** `String(n)` for an integer number `n` (well inside the exactly representable range). */
  function NumberToString(n: int): string {
    if n < 0 then "-" + Numeral(-n) else Numeral(n)
  }

  /** The value of a run of decimal digits, most significant first. */
  function NumeralValue(s: string): nat
    requires AllDigits(s)
  {
    if s == [] then 0 else NumeralValue(s[..|s| - 1]) * 10 + DigitValue(s[|s| - 1])
  }

  // ---------------------------------------------------------------------------
  // parseInt(s, 10)

  /** The result of `parseInt`: an integer or `NaN`. */
  datatype ParsedInt = NaN | Num(n: int)

  /** The white space and line terminators `parseInt` skips before the numeral. */
  predicate IsStrWhiteSpace(c: char) {
    var n := c as int;
    n == 0x09 || n == 0x0A || n == 0x0B || n == 0x0C || n == 0x0D || n == 0x20 ||
    n == 0xA0 || n == 0x1680 || (0x2000 <= n <= 0x200A) || n == 0x2028 || n == 0x2029 ||
    n == 0x202F || n == 0x205F || n == 0x3000 || n == 0xFEFF
  }

  function TrimStart(s: string): (t: string)
    ensures |t| <= |s| && t == s[|s| - |t|..]
    ensures t == [] || !IsStrWhiteSpace(t[0])
  {
    if s != [] && IsStrWhiteSpace(s[0]) then TrimStart(s[1..]) else s
  }

  /** Length of the longest prefix of `s` made of decimal digits. */
  function DigitRun(s: string): (k: nat)
    ensures k <= |s| && AllDigits(s[..k])
    ensures k < |s| ==> !IsDigit(s[k])
  {
    if s != [] && IsDigit(s[0]) then
      var k := 1 + DigitRun(s[1..]);
      assert s[..k] == [s[0]] + s[1..][..k - 1];
      k
    else 0
  }

  /** `parseInt(s, 10)`: skip leading white space, read an optional sign, then the
      longest run of decimal digits; `NaN` when that run is empty. */
  function ParseInt(s: string): ParsedInt {
    var t := TrimStart(s);
    var negative := t != [] && t[0] == '-';
    var u := if t != [] && (t[0] == '-' || t[0] == '+') then t[1..] else t;
    var k := DigitRun(u);
    var magnitude: int := if k == 0 then 0 else NumeralValue(u[..k]);
    if k == 0 then NaN else if negative then Num(-magnitude) else Num(magnitude)
  }

  lemma {:induction false} NumeralValueOfNumeral(n: nat)
    ensures NumeralValue(Numeral(n)) == n
  {
    var s := Numeral(n);
    if n < 10 {
      assert s[..|s| - 1] == [];
    } else {
      NumeralValueOfNumeral(n / 10);
      assert s[..|s| - 1] == Numeral(n / 10);
    }
  }

  lemma {:induction false} DigitRunOfDigits(s: string)
    requires AllDigits(s)
    ensures DigitRun(s) == |s|
  {
    if s != [] {
      DigitRunOfDigits(s[1..]);
    }
  }

  /** A string of decimal digits parses to its decimal value. */
  lemma ParseIntOfDigits(s: string)
    requires s != [] && AllDigits(s)
    ensures ParseInt(s) == Num(NumeralValue(s))
  {
    assert !IsStrWhiteSpace(s[0]);
    assert TrimStart(s) == s;
    assert s[0] != '-' && s[0] != '+';
    DigitRunOfDigits(s);
    assert s[..|s|] == s;
  }

  /** A string that starts with neither white space, a sign nor a digit is `NaN`. */
  lemma ParseIntOfNonNumeral(s: string)
    requires s == [] || (!IsStrWhiteSpace(s[0]) && !IsDigit(s[0]) && s[0] != '-' && s[0] != '+')
    ensures ParseInt(s) == NaN
  {
  }

  /** `parseInt(String(n), 10)` gives `n` back: the decimal numeral round-trips. */
  lemma ParseIntOfNumberToString(n: int)
    ensures ParseInt(NumberToString(n)) == Num(n)
  {
    var s := NumberToString(n);
    var m := if n < 0 then -n else n;
    var digits := Numeral(m);
    assert !IsStrWhiteSpace(s[0]);
    assert TrimStart(s) == s;
    var u := if n < 0 then s[1..] else s;
    assert u == digits;
    DigitRunOfDigits(digits);
    assert u[..|u|] == digits;
    NumeralValueOfNumeral(m);
  }
}
