// Already-decoded JSON values, and the Python conversions (`bool`, `int`,
// `float`) the core applies to them.
module Json {
  import opened Wrappers
  import opened Dicts
  import opened PyStr

  datatype Json =
    | JNull
    | JBool(b: bool)
    | JInt(i: int)
    | JFloat(r: real)
    | JStr(s: string)
    | JArr(items: seq<Json>)
    | JObj(fields: Dict<Json>)

  /** Python truthiness of a decoded value. */
  predicate Truthy(j: Json)
  {
    match j
    case JNull => false
    case JBool(b) => b
    case JInt(i) => i != 0
    case JFloat(r) => r != 0.0
    case JStr(s) => s != ""
    case JArr(items) => items != []
    case JObj(fields) => fields != []
  }

  /** `dict.get(k, default)` on a decoded object. */
  function FieldOr(fields: Dict<Json>, k: string, default: Json): Json
  {
    GetOr(fields, k, default)
  }

  /** `key in container`: `None` where Python raises TypeError. */
  function PyIn(key: string, container: Json): (r: Option<bool>)
    ensures container.JObj? ==> r == Some(HasKey(container.fields, key))
    ensures r.None? <==> !(container.JObj? || container.JArr? || container.JStr?)
  {
    match container
    case JObj(fields) => Some(HasKey(fields, key))
    case JArr(items) => Some(JStr(key) in items)
    case JStr(s) => Some(Contains(s, key))
    case _ => None
  }

  /** `str(x)` for a decoded scalar; other values render as a fixed placeholder. */
  function PyStrOf(j: Json): string
  {
    match j
    case JStr(s) => s
    case JInt(i) => IntToStr(i)
    case JBool(b) => BoolToStr(b)
    case JNull => "None"
    case _ => "<value>"
  }

  /** Truncation toward zero, as `int(x)` does for a float. */
  function TruncReal(r: real): int
  {
    if r >= 0.0 then r.Floor else -((-r).Floor)
  }

  /** The digits of a body `int()` accepts (digits, single underscores only
    * between two digits), underscores dropped; `None` for any other body. */
  function BodyDigits(b: string): (r: Option<string>)
    ensures r.Some? ==> |r.value| > 0 && AllDigits(r.value)
    decreases |b|
  {
    if |b| == 0 || !IsDigit(b[0]) then None
    else if |b| == 1 then Some(b)
    else
      var rest := if b[1] == '_' then b[2..] else b[1..];
      match BodyDigits(rest)
      case None => None
      case Some(ds) => Some([b[0]] + ds)
  }

  function ParseDigitBody(b: string): Option<nat>
  {
    match BodyDigits(b)
    case None => None
    case Some(ds) => Some(DigitsValue(ds))
  }

  /** An optional sign, then a digit body: what `int()` reads once the text
    * is stripped, and what a float's exponent holds. */
  function SignedDigits(t: string): (r: Option<int>)
  {
    if |t| > 0 && (t[0] == '+' || t[0] == '-') then
      match ParseDigitBody(t[1..])
      case None => None
      case Some(n) => var v: int := if t[0] == '-' then 0 - n as int else n as int; Some(v)
    else match ParseDigitBody(t)
      case None => None
      case Some(n) => Some(n)
  }

  /** `int(s)` for a string: `None` where Python raises ValueError. */
  function ParseIntStr(s: string): (r: Option<int>)
  {
    SignedDigits(Strip(s))
  }

  lemma {:induction false} DigitsAreBody(d: string)
    requires |d| > 0 && AllDigits(d)
    ensures BodyDigits(d) == Some(d)
    ensures ParseDigitBody(d) == Some(DigitsValue(d))
  {
    if |d| > 1 {
      DigitsAreBody(d[1..]);
      assert [d[0]] + d[1..] == d;
    }
  }

  lemma ParseDigits(d: string)
    requires |d| > 0 && AllDigits(d)
    ensures ParseIntStr(d) == Some(DigitsValue(d))
  {
    DigitsAreBody(d);
    StripNoEdgeSpace(d);
  }

  lemma StripDash(d: string)
    requires |d| > 0 && AllDigits(d)
    ensures Strip("-" + d) == "-" + d
  {
    var s := "-" + d;
    assert s[0] == '-' && s[|s| - 1] == d[|d| - 1];
    StripNoEdgeSpace(s);
  }

  lemma ParseNegativeDigits(d: string)
    requires |d| > 0 && AllDigits(d)
    ensures ParseIntStr("-" + d) == Some(-(DigitsValue(d) as int))
  {
    var s := "-" + d;
    StripDash(d);
    DigitsAreBody(d);
    assert s[0] == '-' && s[1..] == d;
    ParseNegative(s);
  }

  lemma ParseNegative(t: string)
    requires Strip(t) == t && |t| > 0 && t[0] == '-' && ParseDigitBody(t[1..]).Some?
    ensures ParseIntStr(t) == Some(0 - ParseDigitBody(t[1..]).value as int)
  {
  }

  /** `int(str(i)) == i` */
  lemma IntRoundTrip(i: int)
    ensures ParseIntStr(IntToStr(i)) == Some(i)
  {
    var s := IntToStr(i);
    if i < 0 {
      var n: nat := -i;
      var d := NatToStr(n);
      NatToStrValue(n);
      assert s == "-" + d;
      ParseNegativeDigits(d);
    } else {
      NatToStrValue(i);
      ParseDigits(s);
    }
  }

  /** `int(x)` on a decoded value; `None` where Python raises. */
  function PyInt(j: Json): Option<int>
  {
    match j
    case JBool(b) => Some(if b then 1 else 0)
    case JInt(i) => Some(i)
    case JFloat(r) => Some(TruncReal(r))
    case JStr(s) => ParseIntStr(s)
    case _ => None
  }

  function Pow10(n: nat): (r: nat)
    ensures r >= 1
  {
    if n == 0 then 1 else 10 * Pow10(n - 1)
  }

  /** The value of `ip.fp` for digit strings `ip` and `fp`. */
  function DecimalValue(ip: string, fp: string): real
    requires AllDigits(ip) && AllDigits(fp)
  {
    DigitsValue(ip) as real + (DigitsValue(fp) as real) / (Pow10(|fp|) as real)
  }

  /** A digit body with its underscores dropped; the empty text reads as no digits. */
  function OptionalBody(b: string): (r: Option<string>)
    ensures r.Some? ==> AllDigits(r.value)
  {
    if b == [] then Some([]) else BodyDigits(b)
  }

  /** Unsigned `d`, `d.`, `.d` or `d.d`, each digit run a digit body. */
  function ParseMantissa(t: string): Option<real>
  {
    if ParseDigitBody(t).Some? then Some(ParseDigitBody(t).value as real)
    else match SplitFirst(t, '.')
      case None => None
      case Some(p) =>
        var ip := OptionalBody(p.0);
        var fp := OptionalBody(p.1);
        if (p.0 != [] || p.1 != []) && ip.Some? && fp.Some?
        then Some(DecimalValue(ip.value, fp.value)) else None
  }

  predicate IsExponentMark(c: char) { c == 'e' || c == 'E' }

  /** The position of the first `e` or `E`, or the length when there is none. */
  function ExponentAt(t: string): (i: nat)
    ensures i <= |t|
    ensures i < |t| ==> IsExponentMark(t[i])
    ensures forall j :: 0 <= j < i ==> !IsExponentMark(t[j])
    decreases |t|
  {
    if t == [] || IsExponentMark(t[0]) then 0
    else
      var k := ExponentAt(t[1..]);
      assert forall j :: 1 <= j < 1 + k ==> t[j] == t[1..][j - 1];
      1 + k
  }

  /** `m * 10 ** e` for an integer exponent. */
  function Scaled(m: real, e: int): real
  {
    if e >= 0 then m * (Pow10(e) as real) else m / (Pow10(-e) as real)
  }

  /** A mantissa, then optionally `e` or `E` and a signed digit body. */
  function ParseUnsignedDecimal(t: string): Option<real>
  {
    var i := ExponentAt(t);
    match ParseMantissa(t[..i])
    case None => None
    case Some(m) =>
      if i == |t| then Some(m)
      else match SignedDigits(t[i + 1..])
        case None => None
        case Some(e) => Some(Scaled(m, e))
  }

  /** `float(s)` for a string naming a finite number; `None` where Python
    * raises, and for the infinity and NaN spellings, which name no real. */
  function ParseFloatStr(s: string): Option<real>
  {
    var t := Strip(s);
    if |t| > 0 && (t[0] == '+' || t[0] == '-') then
      match ParseUnsignedDecimal(t[1..])
      case None => None
      case Some(v) => Some(if t[0] == '-' then -v else v)
    else ParseUnsignedDecimal(t)
  }

  /** A digit body holds no exponent mark. */
  lemma {:induction false} BodyHasNoMark(b: string)
    requires BodyDigits(b).Some?
    ensures ExponentAt(b) == |b|
    decreases |b|
  {
    if |b| > 1 {
      var rest := if b[1] == '_' then b[2..] else b[1..];
      BodyHasNoMark(rest);
      assert forall j :: |b| - |rest| <= j < |b| ==> b[j] == rest[j - (|b| - |rest|)];
      assert forall j :: 0 <= j < |b| ==> !IsExponentMark(b[j]);
    }
  }

  /** A single underscore between two digit runs is dropped, as `int()` and
    * `float()` both allow. */
  lemma {:induction false} UnderscoreJoins(a: string, b: string)
    requires |a| > 0 && AllDigits(a) && BodyDigits(b).Some?
    ensures BodyDigits(a + "_" + b) == Some(a + BodyDigits(b).value)
    decreases |a|
  {
    var t := a + "_" + b;
    if |a| == 1 {
      assert |b| > 0 && t[0] == a[0] && t[1] == '_' && t[2..] == b;
      assert [a[0]] == a;
    } else {
      UnderscoreJoins(a[1..], b);
      assert t[1] == a[1] && t[1..] == a[1..] + "_" + b;
      assert [a[0]] + (a[1..] + BodyDigits(b).value) == a + BodyDigits(b).value;
    }
  }

  /** Every text `int()` reads, `float()` reads as the same number. */
  lemma IntTextIsFloatText(s: string)
    requires ParseIntStr(s).Some?
    ensures ParseFloatStr(s) == Some(ParseIntStr(s).value as real)
  {
    var t := Strip(s);
    if |t| > 0 && (t[0] == '+' || t[0] == '-') {
      var b := t[1..];
      BodyHasNoMark(b);
      assert b[..|b|] == b;
    } else {
      BodyHasNoMark(t);
      assert t[..|t|] == t;
    }
  }

  /** An optional sign before digits reads as the signed digits' value. */
  lemma SignedForm(sign: string, e: string)
    requires |e| > 0 && AllDigits(e) && (sign == "" || sign == "+" || sign == "-")
    ensures SignedDigits(sign + e) == Some(if sign == "-" then -(DigitsValue(e) as int) else DigitsValue(e))
  {
    DigitsAreBody(e);
    var t := sign + e;
    if sign == "" {
      assert t == e && IsDigit(e[0]);
    } else {
      assert t[0] == sign[0] && t[1..] == e;
    }
  }

  /** The first exponent mark after a run of digits is the one that follows it. */
  lemma MarkAfterDigits(d: string, rest: string)
    requires AllDigits(d) && |rest| > 0 && IsExponentMark(rest[0])
    ensures ExponentAt(d + rest) == |d|
  {
    var t := d + rest;
    assert t[|d|] == rest[0];
    assert forall j :: 0 <= j < |d| ==> t[j] == d[j];
  }

  /** Digits, an exponent mark and a signed exponent, without the outer sign. */
  lemma UnsignedExponent(d: string, mark: char, x: string)
    requires |d| > 0 && AllDigits(d) && IsExponentMark(mark) && SignedDigits(x).Some?
    ensures ParseUnsignedDecimal(d + [mark] + x) == Some(Scaled(DigitsValue(d) as real, SignedDigits(x).value))
  {
    var t := d + ([mark] + x);
    assert t == d + [mark] + x;
    MarkAfterDigits(d, [mark] + x);
    assert t[..|d|] == d;
    DigitsAreBody(d);
    assert t[|d| + 1..] == x;
  }

  /** Digits, an exponent mark, an optional sign and digits: the digits'
    * value scaled by the signed exponent. */
  lemma ExponentForm(d: string, mark: char, sign: string, e: string)
    requires |d| > 0 && AllDigits(d) && |e| > 0 && AllDigits(e)
    requires IsExponentMark(mark) && (sign == "" || sign == "+" || sign == "-")
    ensures ParseFloatStr(d + [mark] + sign + e)
         == Some(Scaled(DigitsValue(d) as real,
                        if sign == "-" then -(DigitsValue(e) as int) else DigitsValue(e)))
  {
    var x := sign + e;
    var t := d + [mark] + x;
    assert t == d + [mark] + sign + e;
    assert t[0] == d[0] && t[|t| - 1] == e[|e| - 1];
    assert IsDigit(t[0]);
    StripNoEdgeSpace(t);
    assert ParseFloatStr(t) == ParseUnsignedDecimal(t);
    SignedForm(sign, e);
    UnsignedExponent(d, mark, x);
  }

  /** `float(x)` on a decoded value; `None` where Python raises. */
  function PyFloat(j: Json): Option<real>
  {
    match j
    case JBool(b) => Some(if b then 1.0 else 0.0)
    case JInt(i) => Some(i as real)
    case JFloat(r) => Some(r)
    case JStr(s) => ParseFloatStr(s)
    case _ => None
  }
}
