/**
 * The JavaScript built-ins that the leaderboard relies on when it turns
 * request fields and form inputs into numbers, and numbers into labels:
 * `String.prototype.trim`, `parseInt`, `Number()` applied to a string,
 * truthiness, and the rendering of an integer inside a template literal.
 * Only integer values are modelled; a fractional number has no place here.
 */
module JsText {

  /** A JavaScript number restricted to the integers, with NaN kept apart. */
  datatype Num = Int(n: int) | NaN

  /** A JSON request field as JavaScript sees it; `Undefined` is a missing key. */
  datatype JsValue = Undefined | Null | Bool(b: bool) | Number(n: int) | Str(s: string)

  /** The white-space and line-terminator characters skipped by `trim` and `parseInt`. */
  predicate IsSpace(c: char) {
    || c == ' ' || c == '\t' || c == '\n' || c == '\r' || c == '\U{B}' || c == '\U{C}'
    || c == '\U{A0}' || c == '\U{1680}' || ('\U{2000}' <= c <= '\U{200A}')
    || c == '\U{2028}' || c == '\U{2029}' || c == '\U{202F}' || c == '\U{205F}'
    || c == '\U{3000}' || c == '\U{FEFF}'
  }

  predicate IsDigit(c: char) {
    '0' <= c <= '9'
  }

  predicate AllDigits(s: string) {
    forall i :: 0 <= i < |s| ==> IsDigit(s[i])
  }

  function DigitValue(c: char): nat
    requires IsDigit(c)
  {
    c as int - '0' as int
  }

  function DigitChar(d: nat): (c: char)
    requires d < 10
    ensures IsDigit(c) && DigitValue(c) == d
  {
    (d + '0' as int) as char
  }

  /** `s` without its leading white space. */
  function TrimStart(s: string): (r: string)
    ensures |r| <= |s| && r == s[|s| - |r|..]
    ensures forall i :: 0 <= i < |s| - |r| ==> IsSpace(s[i])
    ensures r == [] || !IsSpace(r[0])
  {
    if s != [] && IsSpace(s[0]) then TrimStart(s[1..]) else s
  }

  /** `s` without its trailing white space. */
  function TrimEnd(s: string): (r: string)
    ensures |r| <= |s| && r == s[..|r|]
    ensures forall i :: |r| <= i < |s| ==> IsSpace(s[i])
    ensures r == [] || !IsSpace(r[|r| - 1])
  {
    if s != [] && IsSpace(s[|s| - 1]) then TrimEnd(s[..|s| - 1]) else s
  }

  /**
   * `s.trim()`: the result neither starts nor ends with white space, and it
   * is empty exactly when `s` is made of white space only.
   */
  function Trim(s: string): (r: string)
    ensures r == [] || (!IsSpace(r[0]) && !IsSpace(r[|r| - 1]))
    ensures r == [] <==> forall i :: 0 <= i < |s| ==> IsSpace(s[i])
  {
    var t := TrimStart(s);
    TrimEnd(t)
  }

  /** `t` without the one sign character `parseInt` and `Number()` accept. */
  function Unsigned(t: string): string {
    if t != [] && (t[0] == '-' || t[0] == '+') then t[1..] else t
  }

  /** The number of decimal digits at the front of `s`. */
  function DigitRun(s: string): (k: nat)
    ensures k <= |s| && AllDigits(s[..k])
    ensures k == |s| || !IsDigit(s[k])
  {
    if s != [] && IsDigit(s[0]) then 1 + DigitRun(s[1..]) else 0
  }

  /** The value of a string of decimal digits, most significant digit first. */
  function DigitsValue(ds: string): nat
    requires AllDigits(ds)
  {
    if ds == [] then 0 else 10 * DigitsValue(ds[..|ds| - 1]) + DigitValue(ds[|ds| - 1])
  }

  predicate IsHexDigit(c: char) {
    IsDigit(c) || 'a' <= c <= 'f' || 'A' <= c <= 'F'
  }

  predicate AllHexDigits(s: string) {
    forall i :: 0 <= i < |s| ==> IsHexDigit(s[i])
  }

  function HexDigitValue(c: char): (d: nat)
    requires IsHexDigit(c)
    ensures d < 16
  {
    if IsDigit(c) then DigitValue(c)
    else if 'a' <= c <= 'f' then c as int - 'a' as int + 10
    else c as int - 'A' as int + 10
  }

  /** The number of hexadecimal digits at the front of `s`. */
  function HexRun(s: string): (k: nat)
    ensures k <= |s| && AllHexDigits(s[..k])
    ensures k == |s| || !IsHexDigit(s[k])
  {
    if s != [] && IsHexDigit(s[0]) then 1 + HexRun(s[1..]) else 0
  }

  /** The value of a string of hexadecimal digits, most significant digit first. */
  function HexDigitsValue(ds: string): nat
    requires AllHexDigits(ds)
  {
    if ds == [] then 0 else 16 * HexDigitsValue(ds[..|ds| - 1]) + HexDigitValue(ds[|ds| - 1])
  }

  /** `u` starts with the `0x` or `0X` prefix of a hexadecimal literal. */
  predicate HexPrefixed(u: string) {
    |u| >= 2 && u[0] == '0' && (u[1] == 'x' || u[1] == 'X')
  }

  /**
   * The number that an optional sign and the digits after it at the front
   * of `t` spell: hexadecimal digits after a `0x` or `0X` prefix, decimal
   * digits otherwise; NaN without a digit.
   */
  function LeadingInteger(t: string): Num {
    var u := Unsigned(t);
    if HexPrefixed(u) then
      var h := u[2..];
      var k := HexRun(h);
      if k == 0 then NaN
      else if t[0] == '-' then Int(-(HexDigitsValue(h[..k]) as int))
      else Int(HexDigitsValue(h[..k]))
    else
      var k := DigitRun(u);
      if k == 0 then NaN
      else if t[0] == '-' then Int(-(DigitsValue(u[..k]) as int))
      else Int(DigitsValue(u[..k]))
  }

  /**
   * `parseInt(s)` with no radix: leading white space, one optional sign,
   * then the longest run of hexadecimal digits after a `0x` or `0X` prefix,
   * or else the longest run of decimal digits; NaN when there is no digit.
   */
  function ParseInt(s: string): Num {
    LeadingInteger(TrimStart(s))
  }

  /**
   * The number that `t` spells when it is a `0x` or `0X` prefix followed by
   * hexadecimal digits only, or one optional sign followed by decimal
   * digits only; NaN otherwise. A sign before a hexadecimal literal is NaN.
   */
  function WholeInteger(t: string): Num {
    var u := Unsigned(t);
    if HexPrefixed(t) then
      if |t| > 2 && AllHexDigits(t[2..]) then Int(HexDigitsValue(t[2..])) else NaN
    else if u == [] || !AllDigits(u) then NaN
    else if t[0] == '-' then Int(-(DigitsValue(u) as int))
    else Int(DigitsValue(u))
  }

  /**
   * `Number(s)` for the integer notations: surrounding white space is
   * ignored, an all-white string is 0, a hexadecimal literal or one optional
   * sign followed by decimal digits is read, and anything else is NaN.
   */
  function StringToNumber(s: string): Num {
    var t := Trim(s);
    if t == [] then Int(0) else WholeInteger(t)
  }

  /** The decimal rendering of a natural number, as a template literal prints it. */
  function NatToString(n: nat): (s: string)
    ensures s != [] && AllDigits(s) && DigitsValue(s) == n
    ensures n >= 10 ==> DigitValue(s[0]) != 0
  {
    if n < 10 then [DigitChar(n)]
    else
      var p := NatToString(n / 10);
      var s := p + [DigitChar(n % 10)];
      assert s[..|s| - 1] == p;
      s
  }

  /** The decimal rendering of an integer: a minus sign, then the digits of its magnitude. */
  function IntToString(n: int): string {
    if n < 0 then "-" + NatToString(-n) else NatToString(n)
  }

  lemma {:induction false} DigitRunAll(s: string)
    requires AllDigits(s)
    ensures DigitRun(s) == |s|
  {
    if s != [] {
      DigitRunAll(s[1..]);
    }
  }

  /** A string that neither starts nor ends with white space is its own trim. */
  lemma TrimNothing(s: string)
    requires s != [] && !IsSpace(s[0]) && !IsSpace(s[|s| - 1])
    ensures TrimStart(s) == s && Trim(s) == s
  {
    assert TrimStart(s) == s;
  }

  /** A run of digits with at most one sign in front has no white space to trim. */
  lemma SignedDigitsBare(s: string, ds: string)
    requires ds != [] && AllDigits(ds)
    requires s == ds || s == "-" + ds || s == "+" + ds
    ensures TrimStart(s) == s && Trim(s) == s && Unsigned(s) == ds
  {
    var head, tail := s[0], s[|s| - 1];
    assert IsDigit(head) || head == '-' || head == '+';
    assert IsDigit(tail) by {
      assert tail == ds[|ds| - 1];
    }
    TrimNothing(s);
    if s != ds {
      assert s[1..] == ds;
    }
  }

  /** A run of digits with at most one sign in front is read whole, the same way by `parseInt` and `Number()`. */
  lemma SignedDigitsRead(s: string, ds: string)
    requires ds != [] && AllDigits(ds)
    requires s == ds || s == "-" + ds || s == "+" + ds
    ensures Unsigned(s) == ds
    ensures ParseInt(s) == StringToNumber(s) == WholeInteger(s)
  {
    SignedDigitsBare(s, ds);
    DigitRunAll(ds);
    assert ds[..|ds|] == ds;
  }

  /** Reading back the rendering of any integer gives that integer, for `parseInt` and `Number()` alike. */
  lemma IntToStringRoundTrip(n: int)
    ensures ParseInt(IntToString(n)) == Int(n)
    ensures StringToNumber(IntToString(n)) == Int(n)
  {
    var ds := NatToString(if n < 0 then -n else n);
    SignedDigitsRead(IntToString(n), ds);
  }

  lemma {:induction false} DigitRunStops(u: string, w: string)
    requires AllDigits(u)
    requires w == [] || !IsDigit(w[0])
    ensures DigitRun(u + w) == |u|
  {
    if u != [] {
      assert (u + w)[1..] == u[1..] + w;
      DigitRunStops(u[1..], w);
    }
  }

  /** Trimming from the start only leaves the trimmed string followed by white space. */
  lemma TrimStartSplit(s: string) returns (w: string)
    ensures TrimStart(s) == Trim(s) + w
    ensures w == [] || IsSpace(w[0])
  {
    var t0 := TrimStart(s);
    var t := Trim(s);
    w := t0[|t|..];
    assert t0 == t + w;
  }

  lemma {:induction false} HexRunStops(u: string, w: string)
    requires AllHexDigits(u)
    requires w == [] || !IsHexDigit(w[0])
    ensures HexRun(u + w) == |u|
  {
    if u != [] {
      assert (u + w)[1..] == u[1..] + w;
      HexRunStops(u[1..], w);
    }
  }

  /** A hexadecimal literal followed by white space or nothing is read whole by `parseInt`. */
  lemma HexWholeLeads(t: string, w: string)
    requires HexPrefixed(t) && WholeInteger(t).Int?
    requires w == [] || IsSpace(w[0])
    ensures LeadingInteger(t + w) == WholeInteger(t)
  {
    var h := t[2..];
    assert AllHexDigits(h) && h != [];
    assert Unsigned(t + w) == t + w;
    assert HexPrefixed(t + w) && (t + w)[2..] == h + w;
    HexRunStops(h, w);
    assert (h + w)[..|h|] == h;
  }

  /** Signed decimal digits followed by white space or nothing are read whole by `parseInt`. */
  lemma DecimalWholeLeads(t: string, w: string)
    requires !HexPrefixed(t) && WholeInteger(t).Int?
    requires w == [] || IsSpace(w[0])
    ensures LeadingInteger(t + w) == WholeInteger(t)
  {
    var o := if t[0] == '-' || t[0] == '+' then 1 else 0;
    var u := t[o..];
    assert u == Unsigned(t) && u != [] && AllDigits(u);
    assert (t + w)[0] == t[0];
    assert Unsigned(t + w) == u + w by {
      assert (t + w)[o..] == u + w;
    }
    assert !HexPrefixed(u + w) by {
      assert IsDigit(u[0]);
      if |u| >= 2 {
        assert IsDigit(u[1]);
      }
    }
    DigitRunStops(u, w);
    assert (u + w)[..|u|] == u;
  }

  lemma WholeIntegerLeads(t: string, w: string)
    requires WholeInteger(t).Int?
    requires w == [] || IsSpace(w[0])
    ensures LeadingInteger(t + w) == WholeInteger(t)
  {
    if HexPrefixed(t) {
      HexWholeLeads(t, w);
    } else {
      DecimalWholeLeads(t, w);
    }
  }

  lemma {:induction false} HexRunAll(s: string)
    requires AllHexDigits(s)
    ensures HexRun(s) == |s|
  {
    if s != [] {
      HexRunAll(s[1..]);
    }
  }

  /** A hexadecimal literal with at most a minus sign in front has no white space to trim. */
  lemma HexBare(s: string, ds: string)
    requires ds != [] && AllHexDigits(ds)
    requires s == "0x" + ds || s == "-0x" + ds
    ensures TrimStart(s) == s && Trim(s) == s && Unsigned(s) == "0x" + ds
  {
    var head, tail := s[0], s[|s| - 1];
    assert head == '0' || head == '-';
    assert IsHexDigit(tail) by {
      assert tail == ds[|ds| - 1];
    }
    TrimNothing(s);
    if s != "0x" + ds {
      assert s[1..] == "0x" + ds;
    }
  }

  /** `parseInt` reads the digits after the prefix, with the sign in front. */
  lemma HexParsed(s: string, ds: string)
    requires ds != [] && AllHexDigits(ds)
    requires s == "0x" + ds || s == "-0x" + ds
    ensures ParseInt(s) == if s[0] == '-' then Int(-(HexDigitsValue(ds) as int)) else Int(HexDigitsValue(ds))
  {
    HexBare(s, ds);
    var u := "0x" + ds;
    assert HexPrefixed(u) && u[2..] == ds;
    HexRunAll(ds);
    assert ds[..|ds|] == ds;
  }

  /** `Number()` reads an unsigned hexadecimal literal and refuses a signed one. */
  lemma HexNumber(s: string, ds: string)
    requires ds != [] && AllHexDigits(ds)
    requires s == "0x" + ds || s == "-0x" + ds
    ensures StringToNumber(s) == if s[0] == '-' then NaN else Int(HexDigitsValue(ds))
  {
    HexBare(s, ds);
    if s[0] == '-' {
      assert !HexPrefixed(s);
      assert !IsDigit(Unsigned(s)[1]);
    } else {
      assert HexPrefixed(s) && s[2..] == ds;
    }
  }

  /** The hexadecimal value of `"0x" + ds`, read whole, by `parseInt` and `Number()` alike. */
  lemma HexRead(ds: string)
    requires ds != [] && AllHexDigits(ds)
    ensures ParseInt("0x" + ds) == StringToNumber("0x" + ds) == Int(HexDigitsValue(ds))
    ensures ParseInt("-0x" + ds) == Int(-(HexDigitsValue(ds) as int))
    ensures StringToNumber("-0x" + ds) == NaN
  {
    var s, m := "0x" + ds, "-0x" + ds;
    assert s[0] == '0' && m[0] == '-';
    HexParsed(s, ds);
    HexNumber(s, ds);
    HexParsed(m, ds);
    HexNumber(m, ds);
  }

  lemma HexValues()
    ensures HexDigitsValue("10") == 16 && HexDigitsValue("96") == 150
  {
    assert "10"[..1] == "1" && "1"[..0] == "";
    assert "96"[..1] == "9" && "9"[..0] == "";
  }

  /** "0x10" reads as 16 for both; with a minus sign `parseInt` gives -16 and `Number()` NaN. */
  lemma HexSixteen()
    ensures ParseInt("0x10") == StringToNumber("0x10") == Int(16)
    ensures ParseInt("-0x10") == Int(-16) && StringToNumber("-0x10") == NaN
  {
    var ds := "10";
    assert "0x10" == "0x" + ds && "-0x10" == "-0x" + ds;
    HexRead(ds);
    HexValues();
  }

  /** "0x96" reads as 150 for both. */
  lemma HexOneFifty()
    ensures ParseInt("0x96") == StringToNumber("0x96") == Int(150)
  {
    var ds := "96";
    assert "0x96" == "0x" + ds;
    HexRead(ds);
    HexValues();
  }

  /** A prefix with no digit after it is NaN for `parseInt`. */
  lemma HexPrefixOnly()
    ensures ParseInt("0x") == NaN
  {
    var e := "0x";
    assert !IsSpace(e[0]);
    assert TrimStart(e) == e && Unsigned(e) == e && e[2..] == [];
  }

  /**
   * Where `Number()` reads an integer from a string that is not all white
   * space, `parseInt` reads the same integer (on an all-white string
   * `Number()` gives 0 and `parseInt` gives NaN).
   */
  lemma StringToNumberAgrees(s: string)
    requires StringToNumber(s).Int?
    requires Trim(s) != []
    ensures ParseInt(s) == StringToNumber(s)
  {
    var w := TrimStartSplit(s);
    WholeIntegerLeads(Trim(s), w);
  }

  /** JavaScript truthiness: `undefined`, `null`, `false`, `0` and `""` are falsy. */
  predicate Truthy(v: JsValue) {
    match v
    case Undefined => false
    case Null => false
    case Bool(b) => b
    case Number(n) => n != 0
    case Str(s) => s != []
  }

  /** `Number(v)`, the conversion behind `isNaN(v)` and behind comparing `v` with a number. */
  function ToNumber(v: JsValue): Num {
    match v
    case Undefined => NaN
    case Null => Int(0)
    case Bool(b) => Int(if b then 1 else 0)
    case Number(n) => Int(n)
    case Str(s) => StringToNumber(s)
  }

  /** `parseInt(v)`, which first renders `v` as a string. */
  function ParseIntValue(v: JsValue): Num {
    match v
    case Undefined => ParseInt("undefined")
    case Null => ParseInt("null")
    case Bool(b) => ParseInt(if b then "true" else "false")
    case Number(n) => ParseInt(IntToString(n))
    case Str(s) => ParseInt(s)
  }

  /** `x < bound` for a number `x`: every comparison with NaN is false. */
  predicate Below(x: Num, bound: int) {
    x.Int? && x.n < bound
  }

  /** `x > bound` for a number `x`: every comparison with NaN is false. */
  predicate Above(x: Num, bound: int) {
    x.Int? && x.n > bound
  }
}
