/** The JavaScript values that reach the server in JSON request bodies and
    socket messages, and the ECMAScript conversions the server applies to them:
    ToBoolean (truthiness), `String(v)`, `parseFloat`, `Number(v)` and
    `new Date(v)`. A number is the exact value of the literal it was written
    as: rounding to the nearest double is not modelled, and overflow (a JSON
    literal such as `1e400`, which `JSON.parse` reads as Infinity) is applied
    by `Saturate` where the server tests finiteness. The non-finite results of
    `parseFloat` and `Number` live in `Parsed`. */
module Js {
  import opened Options

  datatype Value =
    | Undefined
    | Null
    | Bool(b: bool)
    | Num(n: real)
    | Str(s: string)
    | Arr(items: seq<Value>)
    | Obj(fields: map<string, Value>)

  /** The result of a numeric conversion: a finite number, NaN or an infinity. */
  datatype Parsed = Finite(value: real) | NaN | Infinity(negative: bool)

  /** The least magnitude a double cannot hold, 2^1024 - 2^970: half a unit
      above the largest finite double, 2^1024 - 2^971, so a literal at or
      beyond it rounds to an infinity. */
  const DoubleOverflow: real := 179769313486231580793728971405303415079934132710037826936173778980444968292764750946649017977587207096330286416692887910946555547851940402630657488671505820681908902000708383676273854845817711531764475730270069855571366959622842914819860834936475292719074168444365510704342711559699508093042880177904174497792.0

  /** Integers of at most this magnitude, 2^53, are held exactly by a double. */
  const ExactIntegerBound: int := 9007199254740992

  predicate Overflows(x: real) {
    x <= -DoubleOverflow || DoubleOverflow <= x
  }

  /** A parsed literal as a double holds it: too large a magnitude is an infinity. */
  function Saturate(p: Parsed): (q: Parsed)
    ensures q.Finite? <==> p.Finite? && !Overflows(p.value)
    ensures q.Finite? ==> q == p
    ensures p.Finite? && Overflows(p.value) ==> q == Infinity(p.value < 0.0)
  {
    if p.Finite? && Overflows(p.value) then Infinity(p.value < 0.0) else p
  }

  /** ECMAScript ToBoolean: `if (v)`, `v ? a : b`, `!v`. */
  predicate Truthy(v: Value) {
    match v
    case Undefined => false
    case Null => false
    case Bool(b) => b
    case Num(n) => n != 0.0
    case Str(s) => s != ""
    case Arr(_) => true
    case Obj(_) => true
  }

  /** `a || b`: the first operand when it is truthy, else the second. */
  function Or(a: Value, b: Value): Value {
    if Truthy(a) then a else b
  }

  /** `Object.prototype.hasOwnProperty.call(v, k)` for the keys this system reads. */
  predicate HasOwn(v: Value, k: string) {
    v.Obj? && k in v.fields
  }

  /** The property read `v[k]` (and the destructuring `const { k } = v`). */
  function Prop(v: Value, k: string): Value {
    if HasOwn(v, k) then v.fields[k] else Undefined
  }

  // ---------------------------------------------------------------------
  // Decimal digits
  // ---------------------------------------------------------------------

  predicate IsDigit(c: char) {
    '0' <= c <= '9'
  }

  predicate AllDigits(s: string) {
    forall i :: 0 <= i < |s| ==> IsDigit(s[i])
  }

  function DigitChar(d: nat): char
    requires d < 10
  {
    ('0' as int + d) as char
  }

  function DigitValue(c: char): nat
    requires IsDigit(c)
  {
    c as int - '0' as int
  }

  /** The value of a string of decimal digits, most significant first. */
  function DigitsValue(s: string): nat
    requires AllDigits(s)
  {
    if s == [] then 0 else DigitsValue(s[..|s| - 1]) * 10 + DigitValue(s[|s| - 1])
  }

  /** The shortest decimal numeral of `n`. */
  function NatToString(n: nat): (s: string)
    ensures |s| > 0 && AllDigits(s)
  {
    if n < 10 then [DigitChar(n)] else NatToString(n / 10) + [DigitChar(n % 10)]
  }

  function IntToString(n: int): string {
    if n < 0 then "-" + NatToString(-n) else NatToString(n)
  }

  function Pow10(e: nat): (p: nat)
    ensures p >= 1
  {
    if e == 0 then 1 else 10 * Pow10(e - 1)
  }

  /** `m` times ten to the power `e`. */
  function Scale(m: nat, e: int): real {
    if e >= 0 then (m * Pow10(e)) as real else m as real / Pow10(-e) as real
  }

  // ---------------------------------------------------------------------
  // String(v)
  // ---------------------------------------------------------------------

  /** At most this many digits are written after the decimal point. */
  const MaxFractionDigits: nat := 20

  /** The decimal digits of a fraction `0 <= f < 1`, without trailing zeros. */
  function FractionDigits(f: real, n: nat): string
    requires 0.0 <= f < 1.0
    decreases n
  {
    if n == 0 || f == 0.0 then ""
    else
      var d := (f * 10.0).Floor;
      [DigitChar(d)] + FractionDigits(f * 10.0 - d as real, n - 1)
  }

  /** Number::toString for the fixed-point range: sign, integer digits and,
      when there is a fraction, a point and its digits. */
  function NumberToString(r: real): string {
    var a := if r < 0.0 then -r else r;
    var whole := a.Floor;
    var frac := a - whole as real;
    var digits := NatToString(whole) + (if frac == 0.0 then "" else "." + FractionDigits(frac, MaxFractionDigits));
    if r < 0.0 then "-" + digits else digits
  }

  /** ECMAScript ToString, i.e. `String(v)`; an array joins its elements with
      commas, writing null and undefined elements as empty strings. */
  function ToString(v: Value): string
    decreases v, 1, 0
  {
    match v
    case Undefined => "undefined"
    case Null => "null"
    case Bool(b) => if b then "true" else "false"
    case Num(n) => NumberToString(n)
    case Str(s) => s
    case Arr(items) => JoinFrom(v, 0)
    case Obj(_) => "[object Object]"
  }

  function JoinFrom(v: Value, i: nat): string
    requires v.Arr? && i <= |v.items|
    decreases v, 0, |v.items| - i
  {
    if i == |v.items| then ""
    else
      var e := v.items[i];
      var head := if e.Undefined? || e.Null? then "" else ToString(e);
      if i + 1 == |v.items| then head else head + "," + JoinFrom(v, i + 1)
  }

  // ---------------------------------------------------------------------
  // parseFloat and Number
  // ---------------------------------------------------------------------

  /** StrWhiteSpaceChar: the white space and line terminators that numeric
      conversions skip (tab, VT, FF, space, NBSP, BOM, the Zs spaces, LF, CR, LS, PS). */
  predicate IsWhiteSpace(c: char) {
    || c == '\t' || c == '\n' || c == '\U{000B}' || c == '\U{000C}' || c == '\r' || c == ' '
    || c == '\U{00A0}' || c == '\U{1680}' || ('\U{2000}' <= c <= '\U{200A}')
    || c == '\U{2028}' || c == '\U{2029}' || c == '\U{202F}' || c == '\U{205F}'
    || c == '\U{3000}' || c == '\U{FEFF}'
  }

  function TrimStart(s: string): (t: string)
    ensures |t| <= |s| && t == s[|s| - |t|..]
    ensures t == [] || !IsWhiteSpace(t[0])
  {
    if s != [] && IsWhiteSpace(s[0]) then TrimStart(s[1..]) else s
  }

  function TrimEnd(s: string): (t: string)
    ensures |t| <= |s| && t == s[..|t|]
    ensures t == [] || !IsWhiteSpace(t[|t| - 1])
  {
    if s != [] && IsWhiteSpace(s[|s| - 1]) then TrimEnd(s[..|s| - 1]) else s
  }

  /** The length of the run of decimal digits that starts `s`. */
  function LeadingDigits(s: string): (n: nat)
    ensures n <= |s| && AllDigits(s[..n])
    ensures n < |s| ==> !IsDigit(s[n])
  {
    if s != [] && IsDigit(s[0]) then
      var n := 1 + LeadingDigits(s[1..]);
      assert s[..n] == [s[0]] + s[1..][..n - 1];
      n
    else 0
  }

  /** The optional ExponentPart (`e`/`E`, optional sign, digits) at the start
      of `s`: its value and its length; (0, 0) when there is no complete one. */
  function ScanExponent(s: string): (r: (int, nat))
    ensures r.1 <= |s|
  {
    if |s| == 0 || (s[0] != 'e' && s[0] != 'E') then (0, 0)
    else
      var signed := |s| > 1 && (s[1] == '-' || s[1] == '+');
      var start := if signed then 2 else 1;
      var n := LeadingDigits(s[start..]);
      if n == 0 then (0, 0)
      else
        var magnitude: int := DigitsValue(s[start..][..n]);
        var e: int := if signed && s[1] == '-' then -magnitude else magnitude;
        (e, start + n)
  }

  /** The longest unsigned StrDecimalLiteral at the start of `u` ("Infinity",
      or digits with an optional fraction and exponent): its value and its
      length; `None` when `u` does not start with one. */
  function ScanUnsigned(u: string): (r: Option<(Parsed, nat)>)
    ensures r.Some? ==> 0 < r.value.1 <= |u|
  {
    if |u| >= 8 && u[..8] == "Infinity" then Some((Infinity(false), 8))
    else
      var ip := LeadingDigits(u);
      var point := ip < |u| && u[ip] == '.';
      var fp := if point then LeadingDigits(u[ip + 1..]) else 0;
      if ip == 0 && fp == 0 then None
      else
        var mantissa := u[..ip] + (if point then u[ip + 1..][..fp] else "");
        var afterFraction := if point then ip + 1 + fp else ip;
        var exponent := ScanExponent(u[afterFraction..]);
        Some((Finite(Scale(DigitsValue(mantissa), exponent.0 - fp)), afterFraction + exponent.1))
  }

  /** StrDecimalLiteral with its optional sign. */
  function ScanDecimal(t: string): (r: Option<(Parsed, nat)>)
    ensures r.Some? ==> 0 < r.value.1 <= |t|
  {
    if |t| > 0 && (t[0] == '-' || t[0] == '+') then
      match ScanUnsigned(t[1..])
      case None => None
      case Some((p, n)) => Some((if t[0] == '-' then Negate(p) else p, n + 1))
    else ScanUnsigned(t)
  }

  function Negate(p: Parsed): Parsed {
    match p
    case Finite(x) => Finite(-x)
    case NaN => NaN
    case Infinity(neg) => Infinity(!neg)
  }

  /** `parseFloat(s)`: the longest decimal literal after leading white space, or NaN. */
  function ParseFloat(s: string): Parsed {
    match ScanDecimal(TrimStart(s))
    case None => NaN
    case Some((p, _)) => p
  }

  /** The value of one digit in bases up to 16, upper or lower case. */
  function DigitOf(c: char): (d: Option<nat>)
    ensures d.Some? ==> d.value < 16
  {
    if '0' <= c <= '9' then Some(c as nat - '0' as nat)
    else if 'a' <= c <= 'f' then Some(c as nat - 'a' as nat + 10)
    else if 'A' <= c <= 'F' then Some(c as nat - 'A' as nat + 10)
    else None
  }

  /** The value of `acc` followed by the digit string `d` in base `b`, or
      None when some character is not a digit of that base. */
  function RadixDigits(d: string, b: int, acc: int): Option<int>
    decreases |d|
  {
    if d == [] then Some(acc)
    else
      var x := DigitOf(d[0]);
      if x.Some? && x.value < b then RadixDigits(d[1..], b, acc * b + x.value) else None
  }

  /** The base a NonDecimalIntegerLiteral prefix names: `0x`/`0X` 16,
      `0o`/`0O` 8, `0b`/`0B` 2; 0 for anything else. */
  function RadixOf(c: char): nat {
    if c == 'x' || c == 'X' then 16
    else if c == 'o' || c == 'O' then 8
    else if c == 'b' || c == 'B' then 2
    else 0
  }

  /** A NonDecimalIntegerLiteral: a base prefix then at least one digit of
      that base, and no sign. */
  function RadixLiteral(t: string): (r: Option<int>)
    ensures r.Some? ==> |t| >= 3 && t[0] == '0' && RadixOf(t[1]) != 0
  {
    if |t| >= 3 && t[0] == '0' && RadixOf(t[1]) != 0 then RadixDigits(t[2..], RadixOf(t[1]), 0)
    else None
  }

  /** StringToNumber, i.e. `Number(s)` for a string: white space alone is 0,
      otherwise the whole trimmed string must be one hexadecimal, octal or
      binary integer literal, or one decimal literal. */
  function StringToNumber(s: string): Parsed {
    var t := TrimEnd(TrimStart(s));
    if t == [] then Finite(0.0)
    else if RadixLiteral(t).Some? then Finite(RadixLiteral(t).value as real)
    else
      match ScanDecimal(t)
      case Some((p, n)) => if n == |t| then p else NaN
      case None => NaN
  }

  /** ECMAScript ToNumber, i.e. `Number(v)`; objects and arrays go through their string form. */
  function ToNumeric(v: Value): Parsed {
    match v
    case Undefined => NaN
    case Null => Finite(0.0)
    case Bool(b) => Finite(if b then 1.0 else 0.0)
    case Num(n) => Finite(n)
    case Str(s) => StringToNumber(s)
    case Arr(_) => StringToNumber(ToString(v))
    case Obj(_) => StringToNumber(ToString(v))
  }

  // ---------------------------------------------------------------------
  // new Date(v)
  // ---------------------------------------------------------------------

  /** The largest magnitude of a valid time value, in milliseconds. */
  const MaxTime: real := 8640000000000000.0

  /** Rounding toward zero. */
  function Trunc(x: real): int {
    if x >= 0.0 then x.Floor else -((-x).Floor)
  }

  /** TimeClip: NaN for a non-finite or out-of-range time, else its integer part. */
  function TimeClip(p: Parsed): Option<int> {
    match p
    case Finite(x) => if x > MaxTime || x < -MaxTime then None else Some(Trunc(x))
    case _ => None
  }

  /** `new Date(v).getTime()`, `None` standing for an Invalid Date. Strings (and
      objects, through their string form) are handed to the platform's date
      parser `parseDate`; every other value goes through ToNumber and TimeClip. */
  function NewDate(v: Value, parseDate: string -> Option<int>): Option<int> {
    match v
    case Str(s) => parseDate(s)
    case Arr(_) => parseDate(ToString(v))
    case Obj(_) => parseDate(ToString(v))
    case _ => TimeClip(ToNumeric(v))
  }

  // ---------------------------------------------------------------------
  // String searching
  // ---------------------------------------------------------------------

  function LowerChar(c: char): char {
    if 'A' <= c <= 'Z' then (c as int + 32) as char else c
  }

  /** `s.toLowerCase()` on the ASCII letters. */
  function ToLowerCase(s: string): (t: string)
    ensures |t| == |s|
  {
    seq(|s|, i requires 0 <= i < |s| => LowerChar(s[i]))
  }

  /** `t` occurs in `s` starting at position `i`. */
  predicate OccursAt(s: string, t: string, i: int) {
    0 <= i <= |s| - |t| && s[i..i + |t|] == t
  }

  /** `s.includes(t)`: `t` occurs in `s` at some position. */
  function Includes(s: string, t: string): (b: bool)
    ensures b <==> exists i :: OccursAt(s, t, i)
  {
    if |t| > |s| then false
    else if s[..|t|] == t then
      assert OccursAt(s, t, 0);
      true
    else
      var b := Includes(s[1..], t);
      assert b ==> exists i :: OccursAt(s, t, i) by {
        if b {
          var i :| OccursAt(s[1..], t, i);
          assert s[i + 1..i + 1 + |t|] == s[1..][i..i + |t|];
          assert OccursAt(s, t, i + 1);
        }
      }
      assert (exists i :: OccursAt(s, t, i)) ==> b by {
        if exists i :: OccursAt(s, t, i) {
          var i :| OccursAt(s, t, i);
          assert i != 0;
          assert s[1..][i - 1..i - 1 + |t|] == s[i..i + |t|];
          assert OccursAt(s[1..], t, i - 1);
        }
      }
      b
  }

  // ---------------------------------------------------------------------
  // Properties
  // ---------------------------------------------------------------------

  /** Reading back the numeral of a natural number gives the number. */
  lemma {:induction false} DigitsValueOfNatToString(n: nat)
    ensures DigitsValue(NatToString(n)) == n
  {
    if n >= 10 {
      var s := NatToString(n);
      assert s[..|s| - 1] == NatToString(n / 10);
      DigitsValueOfNatToString(n / 10);
    }
  }

  lemma {:induction false} LeadingDigitsOfAllDigits(s: string)
    requires AllDigits(s)
    ensures LeadingDigits(s) == |s|
  {
    if s != [] {
      LeadingDigitsOfAllDigits(s[1..]);
    }
  }

  /** `String(n)` of an integer is its plain decimal numeral. */
  lemma NumberToStringOfInt(n: int)
    ensures NumberToString(n as real) == IntToString(n)
  {
    var a := if n < 0 then -n else n;
    assert (if n as real < 0.0 then -(n as real) else n as real) == a as real;
    assert (a as real).Floor == a;
  }

  /** A non-empty run of digits is scanned whole, as the integer it denotes. */
  lemma ScanUnsignedOfDigits(d: string)
    requires |d| > 0 && AllDigits(d)
    ensures ScanUnsigned(d) == Some((Finite(DigitsValue(d) as real), |d|))
  {
    LeadingDigitsOfAllDigits(d);
    if |d| >= 8 {
      assert d[..8][0] == d[0];
      assert d[..8] != "Infinity";
    }
    assert ScanExponent(d[|d|..]) == (0, 0);
    assert d[..|d|] + "" == d;
    assert Scale(DigitsValue(d), 0 - 0) == DigitsValue(d) as real;
  }

  lemma ScanDecimalOfIntToString(n: int)
    ensures ScanDecimal(IntToString(n)) == Some((Finite(n as real), |IntToString(n)|))
  {
    var a: nat := if n < 0 then -n else n;
    var digits := NatToString(a);
    ScanUnsignedOfDigits(digits);
    DigitsValueOfNatToString(a);
    assert IsDigit(digits[0]);
    if n < 0 {
      var t := "-" + digits;
      assert t[1..] == digits;
      assert t[0] == '-';
    }
  }

  /** `parseFloat` reads back the numeral `String` writes for an integer. */
  lemma ParseFloatOfIntToString(n: int)
    ensures ParseFloat(IntToString(n)) == Finite(n as real)
  {
    var t := IntToString(n);
    var a: nat := if n < 0 then -n else n;
    assert IsDigit(NatToString(a)[0]);
    assert t[0] == '-' || t[0] == NatToString(a)[0];
    assert TrimStart(t) == t;
    ScanDecimalOfIntToString(n);
  }

  /** `Includes(s, s[i..j])`: a substring of `s` is found in `s`. */
  lemma IncludesSelf(s: string)
    ensures Includes(s, s)
  {
    assert OccursAt(s, s, 0);
  }
}
