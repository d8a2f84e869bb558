/**
 * The JavaScript values that the document engine stores, compares and coerces:
 * the `typeof` tag of a value, strict equality (`===`) and the number
 * coercion performed by the subtraction `data._id - 1`.
 */
module JsValues {
  import opened Wrappers

  /** A JavaScript number: a finite value, NaN, or an infinity. */
  datatype Number = Finite(x: real) | NaN | Infinity(negative: bool)

  /**
   * A JavaScript value. Symbols, objects, arrays and functions are known to
   * the engine only through their identity `ref`: `===` compares identities,
   * and no operation of the engine looks inside them.
   */
  datatype JsValue =
    | Undefined
    | Null
    | Bool(b: bool)
    | Num(n: Number)
    | Str(s: string)
    | BigInt(i: int)
    | Sym(ref: nat)
    | Obj(ref: nat)
    | Arr(ref: nat)
    | Func(ref: nat)

  /** The eight tags `typeof` can produce. */
  const TypeTags: set<string> :=
    {"undefined", "object", "boolean", "number", "string", "bigint", "symbol", "function"}

  /** JavaScript's `typeof`: `null` and arrays report "object". */
  function TypeOf(v: JsValue): (tag: string)
    ensures tag in TypeTags
    ensures tag != "array"
    ensures tag == "object" <==> v.Null? || v.Obj? || v.Arr?
  {
    match v
    case Undefined => "undefined"
    case Null => "object"
    case Bool(_) => "boolean"
    case Num(_) => "number"
    case Str(_) => "string"
    case BigInt(_) => "bigint"
    case Sym(_) => "symbol"
    case Obj(_) => "object"
    case Arr(_) => "object"
    case Func(_) => "function"
  }

  /** `===` on numbers: NaN equals nothing, not even itself. */
  predicate NumberEquals(a: Number, b: Number)
  {
    match (a, b)
    case (Finite(x), Finite(y)) => x == y
    case (Infinity(m), Infinity(n)) => m == n
    case _ => false
  }

  /**
   * JavaScript's strict equality `===`: no coercion between types, primitives
   * by value, symbols and objects by identity.
   */
  predicate StrictEquals(a: JsValue, b: JsValue)
    ensures StrictEquals(a, b) <==> a == b && a != Num(NaN)
  {
    match (a, b)
    case (Undefined, Undefined) => true
    case (Null, Null) => true
    case (Bool(x), Bool(y)) => x == y
    case (Num(x), Num(y)) => NumberEquals(x, y)
    case (Str(x), Str(y)) => x == y
    case (BigInt(x), BigInt(y)) => x == y
    case (Sym(x), Sym(y)) => x == y
    case (Obj(x), Obj(y)) => x == y
    case (Arr(x), Arr(y)) => x == y
    case (Func(x), Func(y)) => x == y
    case _ => false
  }

  /** Strictly equal values always have the same `typeof` tag. */
  lemma StrictEqualsSameType(a: JsValue, b: JsValue)
    requires StrictEquals(a, b)
    ensures TypeOf(a) == TypeOf(b)
  {
  }

  /*
   * StringToNumber, as section 7.1.4.1 of ECMA-262 defines it: the string,
   * trimmed of white space and line terminators, is read by the grammar
   * StringNumericLiteral. The value is the literal's mathematical value;
   * its rounding to a double is not modelled.
   */

  /** WhiteSpace and LineTerminator: the code points StringToNumber trims. */
  predicate IsStrWhiteSpace(c: char)
  {
    c == '\t' || c == '\U{000B}' || c == '\U{000C}' || c == '\U{FEFF}'
    || c == '\n' || c == '\r' || c == '\U{2028}' || c == '\U{2029}'
    // the space separators, Unicode category Zs
    || c == ' ' || c == '\U{00A0}' || c == '\U{1680}' || '\U{2000}' <= c <= '\U{200A}'
    || c == '\U{202F}' || c == '\U{205F}' || c == '\U{3000}'
  }

  predicate IsBlank(s: string)
  {
    forall i :: 0 <= i < |s| ==> IsStrWhiteSpace(s[i])
  }

  /** The string without its leading white space. */
  function TrimStart(s: string): (t: string)
    ensures |t| <= |s|
    ensures t != [] ==> !IsStrWhiteSpace(t[0])
  {
    if s != [] && IsStrWhiteSpace(s[0]) then TrimStart(s[1..]) else s
  }

  /** The string without its trailing white space. */
  function TrimEnd(s: string): (t: string)
    ensures |t| <= |s|
    ensures t != [] ==> !IsStrWhiteSpace(t[|t| - 1])
  {
    if s != [] && IsStrWhiteSpace(s[|s| - 1]) then TrimEnd(s[..|s| - 1]) else s
  }

  /** The value of a hexadecimal digit (and so of a decimal, octal or binary one). */
  function DigitValue(c: char): nat
  {
    if '0' <= c <= '9' then c as int - '0' as int
    else if 'a' <= c <= 'f' then c as int - 'a' as int + 10
    else if 'A' <= c <= 'F' then c as int - 'A' as int + 10
    else 16
  }

  /** A digit of the given radix (2, 8, 10 or 16). */
  predicate IsDigitOf(c: char, radix: nat)
  {
    DigitValue(c) < radix
  }

  predicate AllDigits(s: string, radix: nat)
  {
    forall i :: 0 <= i < |s| ==> IsDigitOf(s[i], radix)
  }

  /** The value of a run of digits in the given radix; the empty run is 0. */
  function DigitsValue(s: string, radix: nat): nat
    requires AllDigits(s, radix)
  {
    if s == [] then 0
    else radix * DigitsValue(s[..|s| - 1], radix) + DigitValue(s[|s| - 1])
  }

  /** The length of the run of decimal digits that s starts with. */
  function LeadingDigits(s: string): (n: nat)
    ensures n <= |s|
    ensures AllDigits(s[..n], 10)
    ensures n < |s| ==> !IsDigitOf(s[n], 10)
  {
    if s != [] && IsDigitOf(s[0], 10) then
      var n := 1 + LeadingDigits(s[1..]);
      assert s[..n] == [s[0]] + s[1..][..n - 1];
      n
    else 0
  }

  function Pow10(k: nat): (p: nat)
    ensures p >= 1
  {
    if k == 0 then 1 else 10 * Pow10(k - 1)
  }

  /** x times ten to the power e. */
  function Scale(x: real, e: int): real
  {
    if e >= 0 then x * Pow10(e) as real else x / Pow10(-e) as real
  }

  /** SignedInteger: optional sign, then decimal digits. */
  function SignedInteger(s: string): Option<int>
  {
    if s != [] && (s[0] == '+' || s[0] == '-') then
      var digits := s[1..];
      if digits != [] && AllDigits(digits, 10) then
        var v := DigitsValue(digits, 10) as int;
        Some(if s[0] == '-' then -v else v)
      else None
    else if s != [] && AllDigits(s, 10) then Some(DigitsValue(s, 10))
    else None
  }

  /** An optional ExponentPart, as the whole of s: the empty string is exponent 0. */
  function ExponentPart(s: string): Option<int>
  {
    if s == [] then Some(0)
    else if s[0] == 'e' || s[0] == 'E' then SignedInteger(s[1..])
    else None
  }

  /**
   * StrUnsignedDecimalLiteral: `Infinity`, or digits with an optional
   * fraction after `.` (at least one digit in all) and an optional exponent.
   */
  function UnsignedDecimal(s: string): Option<Number>
  {
    if s == "Infinity" then Some(Infinity(false))
    else
      var i := LeadingDigits(s);
      var whole := s[..i];
      var fractionStart := if i < |s| && s[i] == '.' then i + 1 else i;
      var j := fractionStart + LeadingDigits(s[fractionStart..]);
      var fraction := s[fractionStart..j];
      assert fraction == s[fractionStart..][..j - fractionStart];
      if whole == [] && fraction == [] then None
      else
        match ExponentPart(s[j..])
        case None => None
        case Some(e) =>
          var x := DigitsValue(whole, 10) as real + DigitsValue(fraction, 10) as real / Pow10(|fraction|) as real;
          Some(Finite(Scale(x, e)))
  }

  /** Unary minus on a number. */
  function Negate(n: Number): (m: Number)
    ensures n.Finite? ==> m == Finite(-n.x)
    ensures n.Infinity? ==> m == Infinity(!n.negative)
  {
    match n
    case Finite(x) => Finite(-x)
    case Infinity(negative) => Infinity(!negative)
    case NaN => NaN
  }

  /** StrDecimalLiteral: an optional sign before an unsigned decimal literal. */
  function SignedDecimal(s: string): Option<Number>
  {
    if s != [] && s[0] == '-' then
      match UnsignedDecimal(s[1..])
      case Some(n) => Some(Negate(n))
      case None => None
    else if s != [] && s[0] == '+' then UnsignedDecimal(s[1..])
    else UnsignedDecimal(s)
  }

  /** NonDecimalIntegerLiteral: `0x`, `0o` or `0b` (either case) and at least one digit, no sign. */
  function NonDecimalInteger(s: string): Option<Number>
  {
    if |s| >= 2 && s[0] == '0' then
      var radix := if s[1] == 'x' || s[1] == 'X' then 16
        else if s[1] == 'o' || s[1] == 'O' then 8
        else if s[1] == 'b' || s[1] == 'B' then 2
        else 0;
      var digits := s[2..];
      if radix != 0 && digits != [] && AllDigits(digits, radix) then Some(Finite(DigitsValue(digits, radix) as real))
      else None
    else None
  }

  /**
   * ToNumber applied to a string: blank is 0, a numeric literal between
   * white space is its value, and anything else is NaN.
   */
  function StringToNumber(s: string): (n: Number)
    ensures IsBlank(s) ==> n == Finite(0.0)
  {
    var t := TrimEnd(TrimStart(s));
    BlankTrims(s);
    if t == [] then Finite(0.0)
    else
      match NonDecimalInteger(t)
      case Some(n) => n
      case None => SignedDecimal(t).GetOr(NaN)
  }

  /** A blank string trims to nothing. */
  lemma {:induction false} BlankTrims(s: string)
    ensures IsBlank(s) ==> TrimStart(s) == []
  {
    if s != [] && IsBlank(s) {
      assert IsBlank(s[1..]);
      BlankTrims(s[1..]);
    }
  }

  /** A non-empty run of decimal digits reads as its value. */
  lemma DecimalDigitsValue(s: string)
    requires s != [] && AllDigits(s, 10)
    ensures StringToNumber(s) == Finite(DigitsValue(s, 10) as real)
  {
    DigitsUntrimmed(s);
    DigitsNotNonDecimal(s);
    assert SignedDecimal(s) == UnsignedDecimal(s) by {
      assert IsDigitOf(s[0], 10);
    }
    UnsignedDigits(s);
  }

  /** A run of digits has no white space to trim. */
  lemma DigitsUntrimmed(s: string)
    requires s != [] && AllDigits(s, 10)
    ensures TrimEnd(TrimStart(s)) == s
  {
    assert IsDigitOf(s[0], 10) && IsDigitOf(s[|s| - 1], 10);
    assert TrimStart(s) == s;
  }

  /** A run of decimal digits is no `0x`, `0o` or `0b` literal. */
  lemma DigitsNotNonDecimal(s: string)
    requires s != [] && AllDigits(s, 10)
    ensures NonDecimalInteger(s) == None
  {
    assert |s| >= 2 ==> IsDigitOf(s[1], 10);
  }

  /** Proof helper for DecimalDigitsValue: a bare digit run is read by UnsignedDecimal as its value. */
  lemma UnsignedDigits(s: string)
    requires s != [] && AllDigits(s, 10)
    ensures UnsignedDecimal(s) == Some(Finite(DigitsValue(s, 10) as real))
  {
    LeadingDigitsAll(s);
    assert s[..|s|] == s;
    assert s[|s|..] == [];
  }

  /** Proof helper for DecimalDigitsValue: in a digit run every byte is a leading digit. */
  lemma {:induction false} LeadingDigitsAll(s: string)
    requires AllDigits(s, 10)
    ensures LeadingDigits(s) == |s|
  {
    if s != [] {
      assert AllDigits(s[1..], 10);
      LeadingDigitsAll(s[1..]);
    }
  }

  /** Leading and trailing white space do not change the number a string reads as. */
  lemma Padded(w: string, s: string, w2: string)
    requires IsBlank(w) && IsBlank(w2)
    ensures StringToNumber(w + s + w2) == StringToNumber(s)
  {
    TrimStartBlank(w, s + w2);
    assert w + s + w2 == w + (s + w2);
    TrimAfter(s, w2);
  }

  /** Leading blank text is trimmed away. */
  lemma {:induction false} TrimStartBlank(w: string, s: string)
    requires IsBlank(w)
    ensures TrimStart(w + s) == TrimStart(s)
  {
    if w != [] {
      assert (w + s)[1..] == w[1..] + s;
      assert IsBlank(w[1..]);
      TrimStartBlank(w[1..], s);
    } else {
      assert w + s == s;
    }
  }

  /** Trailing blank text is trimmed away. */
  lemma {:induction false} TrimEndBlank(s: string, w: string)
    requires IsBlank(w)
    ensures TrimEnd(s + w) == TrimEnd(s)
    decreases |w|
  {
    if w != [] {
      assert (s + w)[..|s + w| - 1] == s + w[..|w| - 1];
      assert IsBlank(w[..|w| - 1]);
      TrimEndBlank(s, w[..|w| - 1]);
    } else {
      assert s + w == s;
    }
  }

  /** Trimming both ends of `s + w` with w blank trims both ends of s. */
  lemma {:induction false} TrimAfter(s: string, w: string)
    requires IsBlank(w)
    ensures TrimEnd(TrimStart(s + w)) == TrimEnd(TrimStart(s))
    decreases |s|
  {
    if s == [] {
      assert s + w == w;
      BlankTrims(w);
    } else if IsStrWhiteSpace(s[0]) {
      assert (s + w)[1..] == s[1..] + w;
      TrimAfter(s[1..], w);
    } else {
      TrimEndBlank(s, w);
    }
  }

  /** A sign is read: `"-1"` is -1. */
  lemma NegativeOne(s: string)
    requires s == "-1"
    ensures StringToNumber(s) == Finite(-1.0)
  {
    assert TrimEnd(TrimStart(s)) == s;
    assert NonDecimalInteger(s) == None;
    assert s[1..] == "1";
    UnsignedDigits("1");
    assert DigitsValue("1", 10) == 1;
  }

  /** A fraction is read: `"2.5"` is 2.5. */
  lemma TwoAndAHalf(s: string)
    requires s == "2.5"
    ensures StringToNumber(s) == Finite(2.5)
  {
    assert TrimEnd(TrimStart(s)) == s;
    assert NonDecimalInteger(s) == None;
    assert LeadingDigits(s) == 1;
    assert s[..1] == "2" && s[2..] == "5";
    LeadingDigitsAll("5");
    assert s[2..3] == "5" && s[3..] == [];
    assert DigitsValue("2", 10) == 2 && DigitsValue("5", 10) == 5 && Pow10(1) == 10;
    assert UnsignedDecimal(s) == Some(Finite(Scale(2.0 + 5.0 / 10.0, 0)));
  }

  /** A hexadecimal literal is read: `"0x1F"` is 31. */
  lemma HexLiteral(s: string)
    requires s == "0x1F"
    ensures StringToNumber(s) == Finite(31.0)
  {
    assert TrimEnd(TrimStart(s)) == s;
    assert s[2..] == "1F";
    assert DigitsValue("1F", 16) == 31 by {
      assert "1F"[..1] == "1";
    }
  }

  /** An exponent is read: `"1e3"` is 1000. */
  lemma ExponentLiteral(s: string)
    requires s == "1e3"
    ensures StringToNumber(s) == Finite(1000.0)
  {
    assert TrimEnd(TrimStart(s)) == s;
    assert NonDecimalInteger(s) == None;
    assert LeadingDigits(s) == 1;
    assert s[..1] == "1" && s[1..] == "e3" && s[1..][1..] == "3";
    assert s[1..1] == [];
    assert Pow10(3) == 1000;
  }

  /** `"-Infinity"` is the negative infinity. */
  lemma NegativeInfinity(s: string)
    requires s == "-Infinity"
    ensures StringToNumber(s) == Infinity(true)
  {
    assert TrimEnd(TrimStart(s)) == s;
    assert NonDecimalInteger(s) == None;
    assert s[1..] == "Infinity";
  }

  /** Text after a number makes it no literal: `"1a"` is NaN. */
  lemma TrailingText(s: string)
    requires s == "1a"
    ensures StringToNumber(s) == NaN
  {
    assert TrimEnd(TrimStart(s)) == s;
    assert NonDecimalInteger(s) == None;
    assert LeadingDigits(s) == 1;
    assert s[1..] == "a";
  }

  /**
   * The coercion applied to the left operand of `x - 1`. A BigInt or a Symbol
   * operand makes JavaScript throw; such values cannot come out of JSON.parse,
   * and are mapped to NaN here. An array is mapped to NaN too, where
   * JavaScript reads the number in its string form.
   */
  function ToNumber(v: JsValue): (n: Number)
    ensures v.Num? ==> n == v.n
    ensures v.Undefined? || v.Obj? || v.Func? ==> n == NaN
  {
    match v
    case Undefined => NaN
    case Null => Finite(0.0)
    case Bool(b) => Finite(if b then 1.0 else 0.0)
    case Num(n) => n
    case Str(s) => StringToNumber(s)
    case _ => NaN
  }

  /** Subtraction of 1 on JavaScript numbers: NaN and the infinities absorb it. */
  function MinusOne(n: Number): (m: Number)
    ensures n.Finite? <==> m.Finite?
    ensures n.Finite? ==> m.x + 1.0 == n.x
    ensures !n.Finite? ==> m == n
  {
    match n
    case Finite(x) => Finite(x - 1.0)
    case _ => n
  }

  /** The value of `x - 1` for a JavaScript value `x`. */
  function Decrement(v: JsValue): Number
  {
    MinusOne(ToNumber(v))
  }
}
