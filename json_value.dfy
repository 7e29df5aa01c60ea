/**
 * JavaScript values as they arrive in a parsed JSON request body or come back from the user
 * store, with the few JavaScript conversions the controllers and stores apply to them.
 * `undefined` is not a value here: a field that may be absent is an `Option<Value>`.
 */
module JsonValue {
  import opened Wrappers
  import Js

  datatype Value =
    | Str(s: string)
    | Num(n: int)
    | Bool(b: bool)
    | Null
    | List(items: seq<Value>)
    | Obj(fields: map<string, Value>)

  /** JavaScript falsiness of a present value: "", 0, false and null. */
  predicate Falsy(v: Value)
  {
    v == Str("") || v == Num(0) || v == Bool(false) || v == Null
  }

  /** `x ?? d` for a possibly undefined value. */
  function OrNullish(x: Option<Value>, d: Value): (r: Value)
    ensures x.None? || x.value == Null ==> r == d
    ensures x.Some? && x.value != Null ==> r == x.value
  {
    if x.Some? && x.value != Null then x.value else d
  }

  /** `x || d` for a possibly undefined value. */
  function OrFalsy(x: Option<Value>, d: Value): (r: Value)
    ensures x.None? || Falsy(x.value) ==> r == d
    ensures x.Some? && !Falsy(x.value) ==> r == x.value
  {
    if x.Some? && !Falsy(x.value) then x.value else d
  }

  /** `obj[key]` on a record: undefined when the key is absent. */
  function Lookup(record: map<string, Value>, key: string): (r: Option<Value>)
    ensures r.Some? <==> key in record
  {
    if key in record then Some(record[key]) else None
  }

  /**
   * `a === b` for possibly undefined values. Arrays and objects compare by identity, and two
   * that were parsed or read separately are never the same one.
   */
  predicate StrictEquals(a: Option<Value>, b: Option<Value>)
  {
    a == b && (a.Some? ==> !a.value.List? && !a.value.Obj?)
  }

  /** `v.key` on a value that is not null: only an object has members. */
  function Member(v: Value, key: string): (r: Option<Value>)
    ensures r.Some? ==> v.Obj? && key in v.fields && r.value == v.fields[key]
  {
    if v.Obj? then Lookup(v.fields, key) else None
  }

  /** `typeof v === 'object'`, which also holds for arrays and for null. */
  predicate IsObject(v: Value)
  {
    v.Obj? || v.List? || v.Null?
  }

  /** `String(v)`; an array is joined with commas, its null items shown as "". */
  function ToJsString(v: Value): string
    decreases v, 1
  {
    match v
    case Str(s) => s
    case Num(n) => Js.IntToString(n)
    case Bool(b) => if b then "true" else "false"
    case Null => "null"
    case List(items) => JoinItems(v, |items|)
    case Obj(_) => "[object Object]"
  }

  /** `String` of the first `k` items of an array, joined with commas. */
  function JoinItems(v: Value, k: nat): string
    requires v.List? && k <= |v.items|
    decreases v, 0, k
  {
    if k == 0 then ""
    else
      var last := v.items[k - 1];
      var shown := if last.Null? then "" else ToJsString(last);
      if k == 1 then shown else JoinItems(v, k - 1) + "," + shown
  }

  /** `parseInt(v, 10) || 0`: what does not read as a non-zero integer becomes 0. */
  function IntOrZero(v: Value): int
  {
    Js.OrDefault(Js.ParseInt10(ToJsString(v)), 0)
  }

  /** An integer, as a number or as its decimal text, is kept; blank text gives 0. */
  lemma IntOrZeroReads(n: int, w: string)
    requires Js.AllSpace(w)
    ensures IntOrZero(Num(n)) == n
    ensures IntOrZero(Str(Js.IntToString(n))) == n
    ensures IntOrZero(Str(w)) == 0
  {
    Js.ParseIntOfIntToString(n);
    Js.ParseIntBlank(w, false);
  }

  /** Text that starts with a letter is NaN to `parseInt(_, 10)`. */
  lemma LetterLead(s: string)
    requires |s| > 0 && 'a' <= s[0] <= 'z'
    ensures Js.ParseInt10(s) == None
  {
    Js.NoLeadingSpace(s);
    assert Js.TrimStart(s) == s;
  }

  /** null and the booleans read as 0. */
  lemma IntOrZeroWords()
    ensures IntOrZero(Null) == 0 && IntOrZero(Bool(true)) == 0 && IntOrZero(Bool(false)) == 0
  {
    LetterLead("null");
    LetterLead("true");
    LetterLead("false");
  }
  /** The whole of `u` read as digits of `radix`; anything else (or nothing) is NaN. */
  function WholeDigits(u: string, radix: nat): (r: Option<int>)
    requires radix == 10 || radix == 16
    ensures r.Some? ==> |u| > 0 && r.value >= 0
  {
    if |u| > 0 && Js.DigitRun(u, radix) == |u| then Some(Js.DigitsValue(u, radix)) else None
  }

  /**
   * `Number(s)` where it gives a whole number: blank text is 0; a `0x` prefix reads the rest in
   * base 16; otherwise an optional sign and a decimal literal, all of the trimmed text. None
   * stands for NaN and for a value that is not an integer (a fraction, or `Infinity`).
   */
  function StringToNumber(s: string): Option<int>
  {
    NumberText(Js.Trim(s))
  }

  /** `Number` of already trimmed text. */
  function NumberText(t: string): Option<int>
  {
    if t == "" then Some(0)
    else if |t| >= 2 && t[0] == '0' && (t[1] == 'x' || t[1] == 'X') then WholeDigits(t[2..], 16)
    else if t[0] == '-' then
      match UnsignedDecimal(t[1..])
      case None => None
      case Some(m) => Some(0 - m)
    else UnsignedDecimal(if t[0] == '+' then t[1..] else t)
  }

  /** `m * 10^k`, one factor of ten at a time. */
  function Shift(m: nat, k: nat): nat
    decreases k
  {
    if k == 0 then m else Shift(10 * m, k - 1)
  }

  /** `m / 10^j` when that is whole, None otherwise. */
  function Unshift(m: nat, j: nat): Option<int>
    decreases j
  {
    if j == 0 then Some(m) else if m % 10 == 0 then Unshift(m / 10, j - 1) else None
  }

  /**
   * The exponent part that may close a decimal literal: nothing is 0; otherwise `e` or `E`,
   * an optional sign and at least one decimal digit, running to the end of the text.
   */
  function ExponentPart(x: string): Option<int>
  {
    if x == "" then Some(0)
    else if x[0] != 'e' && x[0] != 'E' then None
    else
      var signed := |x| > 1 && (x[1] == '-' || x[1] == '+');
      match WholeDigits(if signed then x[2..] else x[1..], 10)
      case None => None
      case Some(m) => Some(if signed && x[1] == '-' then -m else m)
  }

  /** The number `m * 10^k`, when it is whole. */
  function Scaled(m: nat, k: int): Option<int>
  {
    if k >= 0 then Some(Shift(m, k)) else Unshift(m, -k)
  }

  /** The leading run of decimal digits of `u`. */
  function LeadingDigits(u: string): (r: string)
    ensures |r| <= |u|
    ensures forall k :: 0 <= k < |r| ==> Js.DigitIn(r[k], 10).Some?
  {
    u[..Js.DigitRun(u, 10)]
  }

  /** The digits on both sides of the point read as one integer. */
  function Mantissa(whole: string, frac: string): nat
    requires forall k :: 0 <= k < |whole| ==> Js.DigitIn(whole[k], 10).Some?
    requires forall k :: 0 <= k < |frac| ==> Js.DigitIn(frac[k], 10).Some?
  {
    Shift(Js.DigitsValue(whole, 10), |frac|) + Js.DigitsValue(frac, 10)
  }

  /**
   * An unsigned decimal literal: integer digits, then an optional point with optional fraction
   * digits (a digit on at least one side of it), then an optional exponent part. Its value
   * when that is a whole number.
   */
  function UnsignedDecimal(u: string): Option<int>
  {
    var whole := LeadingDigits(u);
    AfterWhole(whole, u[|whole|..])
  }

  /** What follows the integer digits: an optional point and fraction digits, then the rest. */
  function AfterWhole(whole: string, rest: string): Option<int>
    requires forall k :: 0 <= k < |whole| ==> Js.DigitIn(whole[k], 10).Some?
  {
    if |rest| > 0 && rest[0] == '.' then
      var frac := LeadingDigits(rest[1..]);
      Literal(whole, frac, rest[1..][|frac|..])
    else Literal(whole, "", rest)
  }

  /**
   * The literal with these digit runs, when `tail` is an exponent part and some digit was
   * written.
   */
  function Literal(whole: string, frac: string, tail: string): Option<int>
    requires forall k :: 0 <= k < |whole| ==> Js.DigitIn(whole[k], 10).Some?
    requires forall k :: 0 <= k < |frac| ==> Js.DigitIn(frac[k], 10).Some?
  {
    if |whole| + |frac| == 0 then None
    else
      match ExponentPart(tail)
      case None => None
      case Some(e) => Scaled(Mantissa(whole, frac), e - |frac|)
  }

  /** Digits followed by text that does not start with a digit: the digits are the whole part. */
  lemma {:induction false} WholeThen(w: string, y: string)
    requires Js.DigitRun(w, 10) == |w|
    requires y == [] || !Js.IsDecimalDigit(y[0])
    ensures UnsignedDecimal(w + y) == AfterWhole(w, y)
  {
    Js.DigitRunAppend(w, y);
    assert LeadingDigits(w + y) == w;
    assert (w + y)[|w|..] == y;
  }

  /**
   * `Number(v)` where it is a whole number, None for NaN and for any other value; an array reads
   * as its `String` text, an object is NaN.
   */
  function ToNumber(v: Value): Option<int>
  {
    match v
    case Num(n) => Some(n)
    case Str(s) => StringToNumber(s)
    case Bool(b) => Some(if b then 1 else 0)
    case Null => Some(0)
    case List(_) => StringToNumber(ToJsString(v))
    case Obj(_) => None
  }

  /** The decimal text of an integer has no white space to trim. */
  lemma IntTextTrimmed(n: int)
    ensures Js.Trim(Js.IntToString(n)) == Js.IntToString(n)
  {
    var s := Js.IntToString(n);
    Js.NoLeadingSpace(s);
    var d := Js.NatToString(if n < 0 then -n else n);
    assert s[|s| - 1] == d[|d| - 1];
    assert !Js.IsSpace(s[|s| - 1]);
  }

  /** The digits of a natural number read back as that number. */
  lemma WholeDigitsOfNat(m: nat)
    ensures WholeDigits(Js.NatToString(m), 10) == Some(m)
  {
    Js.NatToStringValue(m);
  }

  /** Text of decimal digits alone is a decimal literal with that value. */
  lemma UnsignedDecimalOfDigits(d: string)
    requires |d| > 0 && Js.DigitRun(d, 10) == |d|
    ensures UnsignedDecimal(d) == Some(Js.DigitsValue(d, 10))
  {
    var none: string := [];
    WholeThen(d, none);
    assert d + none == d;
    assert AfterWhole(d, none) == Literal(d, none, none);
    assert ExponentPart(none) == Some(0);
    assert Mantissa(d, none) == Js.DigitsValue(d, 10) by {
      assert Js.DigitsValue(none, 10) == 0;
    }
    assert Scaled(Mantissa(d, none), 0) == Some(Js.DigitsValue(d, 10));
  }

  /** A natural number's digits read back. */
  lemma NumberTextOfNat(m: nat)
    ensures NumberText(Js.NatToString(m)) == Some(m)
  {
    var d := Js.NatToString(m);
    Js.NatToStringValue(m);
    UnsignedDecimalOfDigits(d);
    if d[0] == '0' {
      assert m == 0 && d == "0";
    }
  }

  /** An integer's decimal text reads back as that integer once trimmed. */
  lemma NumberTextOfInt(n: int)
    ensures NumberText(Js.IntToString(n)) == Some(n)
  {
    if n < 0 {
      var d := Js.NatToString(-n);
      Js.NatToStringValue(-n);
      UnsignedDecimalOfDigits(d);
      assert ("-" + d)[1..] == d;
    } else {
      NumberTextOfNat(n);
    }
  }

  /** `z` zero digits. */
  function Zeros(z: nat): (r: string)
    ensures |r| == z && forall k :: 0 <= k < z ==> r[k] == '0'
  {
    seq(z, _ => '0')
  }

  /** Zero digits have the value 0. */
  lemma {:induction false} ZerosValue(z: nat)
    ensures Js.DigitRun(Zeros(z), 10) == z && Js.DigitsValue(Zeros(z), 10) == 0
  {
    if z > 0 {
      ZerosValue(z - 1);
      assert Zeros(z)[..z - 1] == Zeros(z - 1);
    }
  }

  /** Shifting ten times a number is ten times the shift. */
  lemma {:induction false} ShiftTen(m: nat, k: nat)
    ensures Shift(10 * m, k) == 10 * Shift(m, k)
    decreases k
  {
    if k > 0 {
      ShiftTen(10 * m, k - 1);
    }
  }

  /** A whole number shifted up by `z` places and back down by as many is itself. */
  lemma {:induction false} UnshiftShift(m: nat, z: nat)
    ensures Unshift(Shift(m, z), z) == Some(m)
  {
    if z > 0 {
      ShiftTen(m, z - 1);
      var s := Shift(m, z - 1);
      assert Shift(m, z) == 10 * s;
      assert (10 * s) % 10 == 0 && (10 * s) / 10 == s;
      UnshiftShift(m, z - 1);
    }
  }

  /**
   * A literal written as integer digits, a point, fraction digits and an exponent part
   * reads as the mantissa of both digit runs scaled by the exponent less the fraction length.
   */
  lemma PointLiteral(w: string, f: string, x: string)
    requires Js.DigitRun(w, 10) == |w| && Js.DigitRun(f, 10) == |f| && |w| + |f| > 0
    requires x == [] || x[0] == 'e' || x[0] == 'E'
    ensures UnsignedDecimal(w + "." + f + x) == Literal(w, f, x)
  {
    Regroup(w, f, x);
    WholeThen(w, "." + (f + x));
    FractionThen(f, x);
    AfterPoint(w, f, x);
  }

  /** The text `w.fx` is `w` followed by the point and `fx`. */
  lemma Regroup(w: string, f: string, x: string)
    ensures w + "." + f + x == w + ("." + (f + x))
  {
  }

  /** A point followed by the fraction digits `f` and then `x` hands `f` and `x` to `Literal`. */
  lemma AfterPoint(w: string, f: string, x: string)
    requires Js.DigitRun(w, 10) == |w| && Js.DigitRun(f, 10) == |f|
    requires LeadingDigits(f + x) == f && (f + x)[|f|..] == x
    ensures AfterWhole(w, "." + (f + x)) == Literal(w, f, x)
  {
    var y := "." + (f + x);
    assert y[1..] == f + x;
  }

  /** After the point, digits followed by an exponent part: the digits are the fraction. */
  lemma FractionThen(f: string, x: string)
    requires Js.DigitRun(f, 10) == |f|
    requires x == [] || x[0] == 'e' || x[0] == 'E'
    ensures LeadingDigits(f + x) == f && (f + x)[|f|..] == x
  {
    Js.DigitRunAppend(f, x);
    assert (f + x)[..|f|] == f;
  }

  /** Text that starts with a digit and is not a `0x` literal is read as a decimal literal. */
  lemma DigitLed(u: string)
    requires |u| > 0 && Js.IsDecimalDigit(u[0])
    requires u[0] == '0' ==> |u| == 1 || u[1] == '.'
    ensures NumberText(u) == UnsignedDecimal(u)
  {
  }

  /**
   * A number's digits `d`, a point, fraction digits `f` and an exponent part `x` read as the
   * mantissa of `d` and `f` scaled by the exponent less the fraction length.
   */
  lemma PointText(d: string, f: string, x: string, e: int)
    requires |d| > 0 && Js.IsDecimalDigit(d[0]) && Js.DigitRun(d, 10) == |d| && (d[0] == '0' ==> |d| == 1)
    requires Js.DigitRun(f, 10) == |f| && (x == [] || x[0] == 'e' || x[0] == 'E') && ExponentPart(x) == Some(e)
    ensures NumberText(d + "." + f + x) == Scaled(Mantissa(d, f), e - |f|)
  {
    PointDigitLed(d, f, x);
    PointLiteral(d, f, x);
    LiteralScaled(d, f, x, e);
  }

  /**
   * The decimal text of a whole number followed by a point and any number of zeros reads as
   * that number, as `Number("42.000")` gives 42.
   */
  lemma PointZerosRead(m: nat, z: nat)
    ensures NumberText(Js.NatToString(m) + "." + Zeros(z)) == Some(m)
  {
    var d := Js.NatToString(m);
    Js.NatToStringValue(m);
    ZerosValue(z);
    PointFractionText(d, Zeros(z));
    ZerosMantissa(d, m, z);
    ScaledBack(m, z);
  }

  /** A number's digits, a point and fraction digits `f` read as the mantissa scaled down by `|f|` places. */
  lemma PointFractionText(d: string, f: string)
    requires |d| > 0 && Js.IsDecimalDigit(d[0]) && Js.DigitRun(d, 10) == |d| && (d[0] == '0' ==> |d| == 1)
    requires Js.DigitRun(f, 10) == |f|
    ensures NumberText(d + "." + f) == Scaled(Mantissa(d, f), 0 - |f|)
  {
    var u := d + "." + f;
    assert u[0] == d[0];
    if d[0] == '0' {
      assert u[1] == '.';
    }
    DigitLed(u);
    PointOnly(d, f);
    NoExponent();
    LiteralScaled(d, f, [], 0);
  }

  /** Digits, a point and fraction digits with nothing after them form a literal without exponent. */
  lemma PointOnly(w: string, f: string)
    requires Js.DigitRun(w, 10) == |w| && Js.DigitRun(f, 10) == |f|
    ensures UnsignedDecimal(w + "." + f) == Literal(w, f, [])
  {
    var y := "." + f;
    assert w + "." + f == w + y;
    WholeThen(w, y);
    FractionThen(f, []);
    NoTail(f);
    assert y[1..] == f;
  }

  /** An empty exponent part is the exponent 0. */
  lemma NoExponent()
    ensures ExponentPart([]) == Some(0)
  {
  }

  /** Text followed by nothing is itself. */
  lemma NoTail(u: string)
    ensures u + [] == u
  {
  }

  /** Trailing zero digits after the point shift the integer digits up by as many places. */
  lemma ZerosMantissa(d: string, m: nat, z: nat)
    requires Js.DigitRun(d, 10) == |d| && Js.DigitsValue(d, 10) == m
    ensures Mantissa(d, Zeros(z)) == Shift(m, z)
  {
    ZerosValue(z);
  }

  /** Shifting up by `z` places and scaling back down by as many gives the number itself. */
  lemma ScaledBack(m: nat, z: nat)
    ensures Scaled(Shift(m, z), 0 - z) == Some(m)
  {
    if z > 0 {
      UnshiftShift(m, z);
    }
  }

  /** A number's text, a point and more is led by a digit and is no `0x` literal. */
  lemma PointDigitLed(d: string, f: string, x: string)
    requires |d| > 0 && Js.IsDecimalDigit(d[0]) && (d[0] == '0' ==> |d| == 1)
    ensures NumberText(d + "." + f + x) == UnsignedDecimal(d + "." + f + x)
  {
    var u := d + "." + f + x;
    assert u[0] == d[0];
    if d[0] == '0' {
      assert u[1] == '.';
    }
    DigitLed(u);
  }

  /** A number's digits and one more digit after the point are the mantissa `10a + c`. */
  lemma OneDigitMantissa(d: string, f: string)
    requires Js.DigitRun(d, 10) == |d| && |f| == 1 && Js.DigitRun(f, 10) == 1
    ensures Mantissa(d, f) == 10 * Js.DigitsValue(d, 10) + Js.DigitsValue(f, 10)
  {
    assert Shift(Js.DigitsValue(d, 10), 1) == Shift(10 * Js.DigitsValue(d, 10), 0);
  }

  /** A number whose last digit is not 0, scaled down by one place, is no whole number. */
  lemma TenthNotWhole(m: nat, k: int)
    requires k == -1 && m % 10 != 0
    ensures Scaled(m, k) == None
  {
  }

  /** The last digit of `10a + c` is `c`. */
  lemma LastDigit(a: nat, c: nat)
    requires c < 10
    ensures (10 * a + c) % 10 == c
  {
  }

  /** The one-digit text of `c`. */
  function Digit(c: nat): (r: string)
    requires c < 10
    ensures |r| == 1 && Js.DigitRun(r, 10) == 1 && Js.DigitsValue(r, 10) == c
  {
    var r := [Js.DigitChar(c)];
    assert r[..0] == [];
    r
  }

  /** An exponent part written as `e` and a number's digits is that number. */
  lemma ExponentOf(e: nat)
    ensures ExponentPart("e" + Js.NatToString(e)) == Some(e)
  {
    var x := "e" + Js.NatToString(e);
    Js.NatToStringValue(e);
    assert x[1..] == Js.NatToString(e);
  }

  /**
   * An exponent can make a fraction whole: a number, a point, one digit `c` and the exponent
   * `e >= 1` read as `10a + c` shifted by `e - 1` places, as `Number("4.2e1")` gives 42.
   */
  lemma PointExponentRead(a: nat, c: nat, e: nat)
    requires c < 10 && e >= 1
    ensures NumberText(Js.NatToString(a) + "." + Digit(c) + "e" + Js.NatToString(e)) == Some(Shift(10 * a + c, e - 1))
  {
    var d := Js.NatToString(a);
    Js.NatToStringValue(a);
    ExponentOf(e);
    PointExponentText(d, a, Digit(c), c, Js.NatToString(e), e);
  }

  /** `PointExponentRead` for any digit text `d` of the number `a`. */
  lemma PointExponentText(d: string, a: nat, f: string, c: nat, n: string, e: nat)
    requires |d| > 0 && Js.IsDecimalDigit(d[0]) && Js.DigitRun(d, 10) == |d| && Js.DigitsValue(d, 10) == a && (d[0] == '0' ==> |d| == 1)
    requires |f| == 1 && Js.DigitRun(f, 10) == 1 && Js.DigitsValue(f, 10) == c
    requires e >= 1 && ExponentPart("e" + n) == Some(e)
    ensures NumberText(d + "." + f + "e" + n) == Some(Shift(10 * a + c, e - 1))
  {
    PointExponentPart(d, f, n, e);
    ExponentMantissa(d, a, f, c, e);
  }

  /** The mantissa of `d` and a one-digit `f`, scaled by `e - 1 >= 0` places, is `10a + c` shifted by as many. */
  lemma ExponentMantissa(d: string, a: nat, f: string, c: nat, e: int)
    requires Js.DigitRun(d, 10) == |d| && Js.DigitsValue(d, 10) == a
    requires |f| == 1 && Js.DigitRun(f, 10) == 1 && Js.DigitsValue(f, 10) == c && e >= 1
    ensures Scaled(Mantissa(d, f), e - |f|) == Some(Shift(10 * a + c, e - 1))
  {
    OneDigitMantissa(d, f);
  }

  /** A number's digits, a point, fraction digits `f` and an exponent part read as the mantissa scaled by the exponent less `|f|`. */
  lemma PointExponentPart(d: string, f: string, n: string, e: int)
    requires |d| > 0 && Js.IsDecimalDigit(d[0]) && Js.DigitRun(d, 10) == |d| && (d[0] == '0' ==> |d| == 1)
    requires Js.DigitRun(f, 10) == |f| && ExponentPart("e" + n) == Some(e)
    ensures NumberText(d + "." + f + "e" + n) == Scaled(Mantissa(d, f), e - |f|)
  {
    var x := "e" + n;
    assert x[0] == 'e';
    PointText(d, f, x, e);
    assert d + "." + f + "e" + n == d + "." + f + x;
  }

  /** A literal whose tail is the exponent `e` is its mantissa scaled by `e` less the fraction length. */
  lemma LiteralScaled(d: string, f: string, x: string, e: int)
    requires Js.DigitRun(d, 10) == |d| && Js.DigitRun(f, 10) == |f| && |d| + |f| > 0
    requires ExponentPart(x) == Some(e)
    ensures Literal(d, f, x) == Scaled(Mantissa(d, f), e - |f|)
  {
  }

  /**
   * A value that stays fractional is not an integer: a number, a point and one non-zero digit,
   * as `Number("42.5")`, is no whole number.
   */
  lemma FractionNotWhole(a: nat, c: nat)
    requires 0 < c < 10
    ensures NumberText(Js.NatToString(a) + "." + Digit(c)) == None
  {
    Js.NatToStringValue(a);
    FractionText(Js.NatToString(a), a, Digit(c), c);
  }

  /** `FractionNotWhole` for any digit text `d` of the number `a` and one-digit text `f` of `c`. */
  lemma FractionText(d: string, a: nat, f: string, c: nat)
    requires |d| > 0 && Js.IsDecimalDigit(d[0]) && Js.DigitRun(d, 10) == |d| && Js.DigitsValue(d, 10) == a && (d[0] == '0' ==> |d| == 1)
    requires |f| == 1 && Js.DigitRun(f, 10) == 1 && Js.DigitsValue(f, 10) == c && 0 < c
    ensures NumberText(d + "." + f) == None
  {
    PointFractionText(d, f);
    FractionMantissa(d, a, f, c);
  }

  /** The mantissa of `d` and a non-zero digit `f`, scaled down by one place, is no whole number. */
  lemma FractionMantissa(d: string, a: nat, f: string, c: nat)
    requires Js.DigitRun(d, 10) == |d| && Js.DigitsValue(d, 10) == a
    requires |f| == 1 && Js.DigitRun(f, 10) == 1 && Js.DigitsValue(f, 10) == c && 0 < c
    ensures Scaled(Mantissa(d, f), 0 - |f|) == None
  {
    OneDigitMantissa(d, f);
    LastDigit(a, c);
    TenthNotWhole(Mantissa(d, f), 0 - |f|);
  }

  /** Text that neither starts nor ends with white space is its own trim. */
  lemma NoOuterSpace(t: string)
    requires |t| > 0 && !Js.IsSpace(t[0]) && !Js.IsSpace(t[|t| - 1])
    ensures Js.Trim(t) == t
  {
    Js.NoLeadingSpace(t);
  }

  /** Text that starts with a decimal digit and ends with one or with a point is read untrimmed. */
  lemma DigitBounded(t: string)
    requires |t| > 0 && Js.IsDecimalDigit(t[0])
    requires Js.IsDecimalDigit(t[|t| - 1]) || t[|t| - 1] == '.'
    ensures StringToNumber(t) == NumberText(t)
  {
    NoOuterSpace(t);
  }

  /** `Number` reads a number, a point and zeros as that number. */
  lemma PointZerosNumber(a: nat, z: nat)
    ensures StringToNumber(Js.NatToString(a) + "." + Zeros(z)) == Some(a)
  {
    var d := Js.NatToString(a);
    var u := d + "." + Zeros(z);
    assert u[0] == d[0];
    assert u[|u| - 1] == '.' || u[|u| - 1] == '0';
    DigitBounded(u);
    PointZerosRead(a, z);
  }

  /** `Number` reads a number, a point, one digit `c` and an exponent `e >= 1` as `10a + c` shifted by `e - 1` places. */
  lemma PointExponentNumber(a: nat, c: nat, e: nat)
    requires c < 10 && e >= 1
    ensures StringToNumber(Js.NatToString(a) + "." + Digit(c) + "e" + Js.NatToString(e)) == Some(Shift(10 * a + c, e - 1))
  {
    var d, en := Js.NatToString(a), Js.NatToString(e);
    var v := d + "." + Digit(c) + "e" + en;
    assert v[0] == d[0];
    assert v[|v| - 1] == en[|en| - 1];
    DigitBounded(v);
    PointExponentRead(a, c, e);
  }

  /** `Number` reads a number, a point and one non-zero digit as no integer. */
  lemma FractionNumber(a: nat, c: nat)
    requires 0 < c < 10
    ensures StringToNumber(Js.NatToString(a) + "." + Digit(c)).None?
  {
    var d := Js.NatToString(a);
    var w := d + "." + Digit(c);
    assert w[0] == d[0];
    assert w[|w| - 1] == Digit(c)[0];
    DigitBounded(w);
    FractionNotWhole(a, c);
  }

  /** An integer's decimal text reads back as that integer under `Number`. */
  lemma StringToNumberOfInt(n: int)
    ensures StringToNumber(Js.IntToString(n)) == Some(n)
  {
    NumberTextOfInt(n);
    IntTextTrimmed(n);
  }

  /** A number, and its decimal text, read back as that number; blank text and null are 0. */
  lemma ToNumberReads(n: int, w: string)
    requires Js.AllSpace(w)
    ensures ToNumber(Num(n)) == Some(n)
    ensures ToNumber(Str(Js.IntToString(n))) == Some(n)
    ensures ToNumber(Str(w)) == Some(0) && ToNumber(Null) == Some(0)
  {
    Js.TrimBlank(w);
    StringToNumberOfInt(n);
  }

  /** Text with a letter in front is NaN to `Number`, and so is an object. */
  lemma ToNumberNaN(s: string, fields: map<string, Value>)
    requires |s| > 0 && 'a' <= s[0] <= 'z'
    ensures ToNumber(Str(s)) == None && ToNumber(Obj(fields)) == None
  {
    Js.NoLeadingSpace(s);
    var t := Js.Trim(s);
    assert t != [] && t[0] == s[0];
    LetterText(t);
  }

  /** Trimmed text that starts with a letter is not a number. */
  lemma LetterText(t: string)
    requires |t| > 0 && 'a' <= t[0] <= 'z'
    ensures NumberText(t) == None
  {
    assert Js.DigitRun(t, 10) == 0;
  }
}
