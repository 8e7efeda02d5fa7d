/**
 * The numeric conversion JavaScript applies to the operands of a relational
 * comparison such as `signature.length > 20`: a number compares as itself,
 * `null` and booleans as 0 and 1, `undefined` and plain objects as NaN, and
 * strings (and arrays, through their comma-joined text) by the
 * StringNumericLiteral grammar of section 7.1.4.1 of ECMA-262.
 *
 * The value of a numeric string is kept exact, as `±mantissa × 10^exp`, so
 * that comparisons never need a floating-point approximation.
 */
module JsNumber {
  import opened JsValue

  /** `Number(s)` for a string `s`: a finite decimal value, an infinity or NaN. */
  datatype NumText = Finite(neg: bool, mantissa: nat, exp: int) | Infinite(neg: bool) | NaN

  /** The white space and line terminators `Number(s)` trims from both ends. */
  predicate StrWhiteSpace(c: char)
  {
    || c in {'\t', '\n', '\U{B}', '\U{C}', '\r', ' ', '\U{A0}', '\U{1680}', '\U{2028}', '\U{2029}',
             '\U{202F}', '\U{205F}', '\U{3000}', '\U{FEFF}'}
    || '\U{2000}' <= c <= '\U{200A}'
  }

  function TrimStart(s: string): (t: string)
    ensures |t| <= |s| && t == s[|s| - |t|..]
    ensures t != [] ==> !StrWhiteSpace(t[0])
    ensures (forall i :: 0 <= i < |s| ==> !StrWhiteSpace(s[i])) ==> t == s
  {
    if s != [] && StrWhiteSpace(s[0]) then TrimStart(s[1..]) else s
  }

  function TrimEnd(s: string): (t: string)
    ensures |t| <= |s| && t == s[..|t|]
    ensures t != [] ==> !StrWhiteSpace(t[|t| - 1])
    ensures (forall i :: 0 <= i < |s| ==> !StrWhiteSpace(s[i])) ==> t == s
  {
    if s != [] && StrWhiteSpace(s[|s| - 1]) then TrimEnd(s[..|s| - 1]) else s
  }

  /** The value of `c` as a digit in base `radix` (2, 8, 10 or 16), or -1 when it is none. */
  function DigitIn(c: char, radix: nat): (d: int)
    ensures d == -1 || 0 <= d < radix
  {
    if '0' <= c <= '9' && (c as int - '0' as int) < radix then c as int - '0' as int
    else if radix == 16 && 'a' <= c <= 'f' then c as int - 'a' as int + 10
    else if radix == 16 && 'A' <= c <= 'F' then c as int - 'A' as int + 10
    else -1
  }

  predicate AllDigitsIn(s: string, radix: nat)
  {
    forall i :: 0 <= i < |s| ==> DigitIn(s[i], radix) >= 0
  }

  /** The value of the digit string `s` in base `radix`. */
  function RadixValue(s: string, radix: nat): nat
    requires AllDigitsIn(s, radix)
  {
    if s == [] then 0 else RadixValue(s[..|s| - 1], radix) * radix + DigitIn(s[|s| - 1], radix)
  }

  /** How many decimal digits `s` starts with. */
  function LeadingDigits(s: string): (n: nat)
    ensures n <= |s|
    ensures AllDigitsIn(s[..n], 10)
    ensures n < |s| ==> DigitIn(s[n], 10) < 0
  {
    if s == [] || DigitIn(s[0], 10) < 0 then 0
    else
      var n := 1 + LeadingDigits(s[1..]);
      assert s[..n] == [s[0]] + s[1..][..n - 1];
      n
  }

  /** The exponent part `e±digits` at the end of a decimal literal; `Some(0)` when there is none. */
  function ExponentOf(tail: string): Option<int>
  {
    if tail == [] then Some(0)
    else if tail[0] != 'e' && tail[0] != 'E' then None
    else
      var s := tail[1..];
      var neg := s != [] && s[0] == '-';
      var digits := if s != [] && (s[0] == '+' || s[0] == '-') then s[1..] else s;
      if digits != [] && AllDigitsIn(digits, 10) then
        Some(if neg then -(RadixValue(digits, 10) as int) else RadixValue(digits, 10))
      else None
  }

  /** A trimmed, non-empty StrDecimalLiteral: sign, `Infinity`, or digits with a fraction and an exponent. */
  function DecimalText(t: string): NumText
  {
    var neg := t != [] && t[0] == '-';
    var u := if t != [] && (t[0] == '+' || t[0] == '-') then t[1..] else t;
    if u == "Infinity" then Infinite(neg)
    else
      var n1 := LeadingDigits(u);
      var rest := u[n1..];
      var afterDot := if rest != [] && rest[0] == '.' then rest[1..] else rest;
      var n2 := if rest != [] && rest[0] == '.' then LeadingDigits(afterDot) else 0;
      if n1 + n2 == 0 then NaN
      else
        assert AllDigitsIn(u[..n1] + afterDot[..n2], 10) by {
          assert forall i :: 0 <= i < n1 + n2 ==>
            (u[..n1] + afterDot[..n2])[i] == if i < n1 then u[..n1][i] else afterDot[..n2][i - n1];
        }
        match ExponentOf(afterDot[n2..])
        case None => NaN
        case Some(e) => Finite(neg, RadixValue(u[..n1] + afterDot[..n2], 10), e - n2)
  }

  /** A `0x`, `0o` or `0b` literal: digits of the radix after the prefix, with no sign. */
  function RadixText(t: string, radix: nat): NumText
    requires |t| >= 2
  {
    if |t| > 2 && AllDigitsIn(t[2..], radix) then Finite(false, RadixValue(t[2..], radix), 0) else NaN
  }

  /** The radix a trimmed literal's prefix selects: 16, 8 or 2 after `0x`, `0o` or `0b`, else 10. */
  function PrefixRadix(t: string): (radix: nat)
    ensures radix in {2, 8, 10, 16}
    ensures radix != 10 ==> |t| >= 2 && t[0] == '0' && DigitIn(t[1], 10) < 0
  {
    if |t| < 2 || t[0] != '0' then 10
    else if t[1] == 'x' || t[1] == 'X' then 16
    else if t[1] == 'o' || t[1] == 'O' then 8
    else if t[1] == 'b' || t[1] == 'B' then 2
    else 10
  }

  /** `Number(s)`, ToNumber applied to a string. */
  function StringToNumber(s: string): NumText
  {
    var t := TrimEnd(TrimStart(s));
    if t == [] then Finite(false, 0, 0)
    else if PrefixRadix(t) != 10 then RadixText(t, PrefixRadix(t))
    else DecimalText(t)
  }

  function Pow10(e: nat): (p: nat)
    ensures p >= 1
  {
    if e == 0 then 1 else 10 * Pow10(e - 1)
  }

  /** Whether the number `n` is greater than `k`; NaN is greater than nothing. */
  predicate TextAbove(n: NumText, k: nat)
  {
    match n
    case Finite(neg, m, e) => !neg && (if e >= 0 then m * Pow10(e) > k else m > k * Pow10(-e))
    case Infinite(neg) => !neg
    case NaN => false
  }

  /** `v > k` for a number `k`, converting `v` as the comparison does. */
  predicate Above(v: Value, k: nat)
  {
    match v
    case Undefined => false
    case Null => 0 > k
    case Bool(b) => (if b then 1 else 0) > k
    case Num(n) => n > k
    case Str(s) => TextAbove(StringToNumber(s), k)
    case Arr(items) => TextAbove(StringToNumber(JoinItems(items)), k)
    case Obj(_) => false  // "[object Object]" converts to NaN
  }

  /** A decimal rendering reads back as the number it renders. */
  lemma {:induction false} DigitsRoundTrip(n: nat)
    ensures AllDigitsIn(NatToString(n), 10)
    ensures RadixValue(NatToString(n), 10) == n
  {
    var s := NatToString(n);
    if n >= 10 {
      DigitsRoundTrip(n / 10);
      assert s[..|s| - 1] == NatToString(n / 10);
    }
  }

  /** A run of decimal digits has no white space to trim and is all leading digits. */
  lemma DigitsUntouched(s: string)
    requires AllDigitsIn(s, 10)
    ensures TrimEnd(TrimStart(s)) == s
    ensures LeadingDigits(s) == |s|
  {
    assert forall i :: 0 <= i < |s| ==> !StrWhiteSpace(s[i]) by {
      forall i | 0 <= i < |s| ensures !StrWhiteSpace(s[i]) {
        assert DigitIn(s[i], 10) >= 0;
      }
    }
  }

  /** Text with nothing to trim and no radix prefix is read as a decimal literal. */
  lemma PlainDecimal(t: string)
    requires t != [] && TrimEnd(TrimStart(t)) == t
    requires |t| >= 2 && t[0] == '0' ==> DigitIn(t[1], 10) >= 0
    ensures StringToNumber(t) == DecimalText(t)
  {
  }

  /** A signed decimal literal without fraction or exponent denotes its digits' value. */
  lemma DigitsDecimal(neg: bool, s: string)
    requires s != [] && AllDigitsIn(s, 10)
    ensures DecimalText(if neg then "-" + s else s) == Finite(neg, RadixValue(s, 10), 0)
  {
    DigitsUntouched(s);
    var t := if neg then "-" + s else s;
    var u := if t != [] && (t[0] == '+' || t[0] == '-') then t[1..] else t;
    assert DigitIn(s[0], 10) >= 0;
    assert u == s;
    assert u != "Infinity" by {
      assert DigitIn('I', 10) < 0;
    }
    assert u[LeadingDigits(u)..] == [];
    assert u[..|u|] + [][..0] == s;
  }

  /** `Number(String(n))` is `n` for every natural number. */
  lemma NatTextNumber(n: nat)
    ensures StringToNumber(NatToString(n)) == Finite(false, n, 0)
  {
    var s := NatToString(n);
    DigitsRoundTrip(n);
    DigitsUntouched(s);
    DigitsDecimal(false, s);
    if |s| >= 2 {
      assert DigitIn(s[1], 10) >= 0;
    }
    PlainDecimal(s);
  }

  /** A minus sign followed by digits has nothing to trim. */
  lemma NegativeUntouched(s: string)
    requires AllDigitsIn(s, 10)
    ensures TrimEnd(TrimStart("-" + s)) == "-" + s
  {
    var t := "-" + s;
    assert forall j :: 0 <= j < |t| ==> !StrWhiteSpace(t[j]) by {
      forall j | 0 <= j < |t| ensures !StrWhiteSpace(t[j]) {
        if j > 0 {
          assert t[j] == s[j - 1];
          DigitNotSpace(s[j - 1]);
        }
      }
    }
    assert TrimStart(t) == t;
  }

  lemma DigitNotSpace(c: char)
    requires DigitIn(c, 10) >= 0
    ensures !StrWhiteSpace(c)
  {
  }

  /** `Number(String(i))` is `i` for every integer. */
  lemma IntTextNumber(i: int)
    ensures StringToNumber(IntToString(i)) == Finite(i < 0, if i < 0 then -i else i, 0)
  {
    if i >= 0 {
      NatTextNumber(i);
    } else {
      var s := NatToString(-i);
      DigitsRoundTrip(-i);
      DigitsDecimal(true, s);
      NegativeUntouched(s);
      PlainDecimal("-" + s);
    }
  }

  /** Comparing the text of an integer with `k` compares the integer itself. */
  lemma IntTextAbove(i: int, k: nat)
    ensures Above(Str(IntToString(i)), k) <==> i > k
  {
    IntTextNumber(i);
    assert Pow10(0) == 1;
  }
}
