/**
 * The few JavaScript string and number built-ins the storefront relies on:
 * `String.prototype.startsWith`, `String.prototype.includes`,
 * `Number.prototype.toString` on a non-negative integer, and the global
 * `parseInt` with no radix argument.
 */
module JsText {
  import opened Wrappers

  /** `s.startsWith(prefix)` */
  predicate StartsWith(s: string, prefix: string) {
    |prefix| <= |s| && s[..|prefix|] == prefix
  }

  /** `sub` occurs in `s` starting at index `i`. */
  predicate OccursAt(s: string, sub: string, i: int) {
    0 <= i && i + |sub| <= |s| && s[i..i + |sub|] == sub
  }

  /** `s.includes(sub)`: `sub` occurs in `s` as a contiguous substring. */
  function Includes(s: string, sub: string): (r: bool)
    ensures r <==> exists i :: OccursAt(s, sub, i)
    decreases |s|
  {
    if |sub| > |s| then false
    else if s[..|sub|] == sub then
      assert OccursAt(s, sub, 0);
      true
    else
      OccursLater(s, sub);
      Includes(s[1..], sub)
  }

  /** Past a mismatch at the front, `sub` occurs in `s` exactly when it occurs in `s[1..]`. */
  lemma OccursLater(s: string, sub: string)
    requires |sub| <= |s| && s[..|sub|] != sub
    ensures (exists i :: OccursAt(s, sub, i)) <==> (exists i :: OccursAt(s[1..], sub, i))
  {
    if i :| OccursAt(s, sub, i) {
      assert i != 0;
      assert s[1..][i - 1..i - 1 + |sub|] == s[i..i + |sub|];
      assert OccursAt(s[1..], sub, i - 1);
    }
    if i :| OccursAt(s[1..], sub, i) {
      assert s[i + 1..i + 1 + |sub|] == s[1..][i..i + |sub|];
      assert OccursAt(s, sub, i + 1);
    }
  }

  predicate IsDecimalDigit(c: char) {
    '0' <= c <= '9'
  }

  predicate IsHexDigit(c: char) {
    IsDecimalDigit(c) || 'a' <= c <= 'f' || 'A' <= c <= 'F'
  }

  /** Whether `c` is a digit in the radix `parseInt` settled on (10, or 16 after a `0x` prefix). */
  predicate IsRadixDigit(c: char, hex: bool) {
    if hex then IsHexDigit(c) else IsDecimalDigit(c)
  }

  function DigitValue(c: char): (v: nat)
    requires IsHexDigit(c)
    ensures v < 16
    ensures IsDecimalDigit(c) ==> v < 10
  {
    if IsDecimalDigit(c) then c as int - '0' as int
    else if 'a' <= c <= 'f' then c as int - 'a' as int + 10
    else c as int - 'A' as int + 10
  }

  function DecimalDigit(d: nat): (c: char)
    requires d < 10
    ensures IsDecimalDigit(c) && DigitValue(c) == d
  {
    ('0' as int + d) as char
  }

  /** `n.toString()` for a non-negative integer: its decimal digits, no leading zero. */
  function NatToDecimal(n: nat): (s: string)
    ensures |s| >= 1
    ensures forall i :: 0 <= i < |s| ==> IsDecimalDigit(s[i])
    ensures |s| > 1 ==> s[0] != '0'
  {
    if n < 10 then [DecimalDigit(n)] else NatToDecimal(n / 10) + [DecimalDigit(n % 10)]
  }

  /** The whitespace `parseInt` skips: ECMAScript's WhiteSpace and LineTerminator characters. */
  predicate IsJsWhitespace(c: char) {
    var n := c as int;
    n == 0x09 || n == 0x0A || n == 0x0B || n == 0x0C || n == 0x0D || n == 0x20 ||
    n == 0xA0 || n == 0x1680 || (0x2000 <= n <= 0x200A) || n == 0x2028 || n == 0x2029 ||
    n == 0x202F || n == 0x205F || n == 0x3000 || n == 0xFEFF
  }

  /** `s` without its leading whitespace. */
  function TrimStart(s: string): (r: string)
    ensures |r| <= |s| && r == s[|s| - |r|..]
    ensures forall i :: 0 <= i < |s| - |r| ==> IsJsWhitespace(s[i])
    ensures r == [] || !IsJsWhitespace(r[0])
  {
    if |s| > 0 && IsJsWhitespace(s[0]) then TrimStart(s[1..]) else s
  }

  /** The length of the longest prefix of `s` made of digits of the radix. */
  function DigitRunLength(s: string, hex: bool): (n: nat)
    ensures n <= |s|
    ensures forall i :: 0 <= i < n ==> IsRadixDigit(s[i], hex)
    ensures n < |s| ==> !IsRadixDigit(s[n], hex)
    ensures n == 0 <==> s == [] || !IsRadixDigit(s[0], hex)
  {
    if |s| > 0 && IsRadixDigit(s[0], hex) then 1 + DigitRunLength(s[1..], hex) else 0
  }

  /** The value of a run of digits in radix 10 or 16, most significant first. */
  function DigitsValue(ds: string, hex: bool): nat
    requires forall i :: 0 <= i < |ds| ==> IsRadixDigit(ds[i], hex)
  {
    if ds == [] then 0
    else
      assert IsRadixDigit(ds[|ds| - 1], hex);
      DigitsValue(ds[..|ds| - 1], hex) * (if hex then 16 else 10) + DigitValue(ds[|ds| - 1])
  }

  /** `t` without one leading sign character, if it has one. */
  function AfterSign(t: string): (u: string)
    ensures u == t || (|t| > 0 && (t[0] == '-' || t[0] == '+') && u == t[1..])
  {
    if |t| > 0 && (t[0] == '-' || t[0] == '+') then t[1..] else t
  }

  /** `u` starts with `0x` or `0X`, which switches `parseInt` to radix 16. */
  predicate HasHexPrefix(u: string) {
    |u| >= 2 && u[0] == '0' && (u[1] == 'x' || u[1] == 'X')
  }

  /**
   * The digits `parseInt` reads past the whitespace and the sign: radix 16 after
   * a `0x`/`0X` prefix, radix 10 otherwise, the longest run of digits. `None` when
   * that run is empty.
   */
  function ParseUnsigned(u: string): (r: Option<nat>)
    ensures r == None <==>
      (u == [] || !IsDecimalDigit(u[0]) || (HasHexPrefix(u) && (|u| == 2 || !IsHexDigit(u[2]))))
  {
    var hex := HasHexPrefix(u);
    var body := if hex then u[2..] else u;
    var n := DigitRunLength(body, hex);
    if n == 0 then None else Some(DigitsValue(body[..n], hex))
  }

  /**
   * `parseInt(s)`: skip leading whitespace, read an optional sign, switch to
   * radix 16 after a `0x`/`0X` prefix, then read the longest run of digits.
   * No digit at all gives `NaN`, here `None`: that happens exactly when, past the
   * whitespace and the sign, there is no decimal digit, or there is a `0x` prefix
   * with no hexadecimal digit after it.
   */
  function ParseInt(s: string): (r: Option<int>)
    ensures var u := AfterSign(TrimStart(s));
      r == None <==>
        (u == [] || !IsDecimalDigit(u[0]) || (HasHexPrefix(u) && (|u| == 2 || !IsHexDigit(u[2]))))
  {
    var t := TrimStart(s);
    var sign := if |t| > 0 && t[0] == '-' then -1 else 1;
    match ParseUnsigned(AfterSign(t))
    case None => None
    case Some(v) => Some(sign * v)
  }

  /** Reading back the decimal digits that `toString` writes gives the number. */
  lemma {:induction false} DecimalValueOfNatToDecimal(n: nat)
    ensures DigitsValue(NatToDecimal(n), false) == n
  {
    var s := NatToDecimal(n);
    if n >= 10 {
      DecimalValueOfNatToDecimal(n / 10);
      assert s[..|s| - 1] == NatToDecimal(n / 10);
    }
  }

  /** `parseInt` reads a plain run of decimal digits as its decimal value. */
  lemma ParseIntOfDecimalDigits(s: string)
    requires |s| >= 1 && (|s| > 1 ==> s[0] != '0')
    requires forall i :: 0 <= i < |s| ==> IsDecimalDigit(s[i])
    ensures ParseInt(s) == Some(DigitsValue(s, false))
  {
    assert !IsJsWhitespace(s[0]);
    assert TrimStart(s) == s;
    assert s[0] != '-' && s[0] != '+';
    assert AfterSign(s) == s;
    assert !HasHexPrefix(s) by {
      if |s| >= 2 {
        assert IsDecimalDigit(s[1]);
      }
    }
    DigitRunOfDigits(s);
    assert s[..|s|] == s;
  }

  lemma DigitRunOfDigits(s: string)
    requires forall i :: 0 <= i < |s| ==> IsDecimalDigit(s[i])
    ensures DigitRunLength(s, false) == |s|
  {
  }

  /** `parseInt(n.toString()) == n` for every non-negative integer `n`. */
  lemma ParseIntOfNatToDecimal(n: nat)
    ensures ParseInt(NatToDecimal(n)) == Some(n)
  {
    ParseIntOfDecimalDigits(NatToDecimal(n));
    DecimalValueOfNatToDecimal(n);
  }

  /** Leading whitespace in front of a non-digit still gives NaN. */
  lemma ParseIntNaNAfterWhitespace()
    ensures ParseInt("  x") == None
  {
    assert TrimStart("  x") == "x" by {
      assert "  x"[1..] == " x" && " x"[1..] == "x";
      assert IsJsWhitespace(' ') && !IsJsWhitespace('x');
    }
    assert AfterSign("x") == "x";
    assert !IsDecimalDigit('x');
  }

  /** A sign in front of a non-digit still gives NaN. */
  lemma ParseIntNaNAfterSign()
    ensures ParseInt("-x") == None
  {
    assert TrimStart("-x") == "-x" by {
      assert !IsJsWhitespace('-');
    }
    assert "-x"[1..] == "x";
    assert AfterSign("-x") == "x";
  }

  /** A `0x` prefix with nothing after it gives NaN, though it starts with a digit. */
  lemma ParseIntNaNBareHexPrefix()
    ensures ParseInt("0x") == None
  {
    assert TrimStart("0x") == "0x" by {
      assert !IsJsWhitespace('0');
    }
    assert AfterSign("0x") == "0x";
    assert HasHexPrefix("0x");
  }
}
