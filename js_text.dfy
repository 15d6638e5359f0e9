/** The two JavaScript string built-ins the spending form relies on:
    `String.prototype.trim` and the global `parseInt`, as the ECMAScript
    language specification defines them (sections 22.1.3.32 and 19.2.5 of
    ECMA-262), over integers instead of IEEE doubles. */
module JsText {
  import opened Types

  /** A character `trim` and `parseInt` skip: ECMAScript WhiteSpace (tab,
      vertical tab, form feed, byte-order mark and every Unicode space
      separator) or LineTerminator. */
  predicate IsJsWhitespace(c: char): (b: bool)
    ensures b ==> !IsDigit(c, 36) && c != '-' && c != '+'
  {
    || c == '\t' || c == '\n' || c == '\U{000B}' || c == '\U{000C}' || c == '\r'
    || c == ' ' || c == '\U{00A0}' || c == '\U{1680}'
    || ('\U{2000}' <= c <= '\U{200A}')
    || c == '\U{2028}' || c == '\U{2029}' || c == '\U{202F}' || c == '\U{205F}'
    || c == '\U{3000}' || c == '\U{FEFF}'
  }

  /** `s` with its leading whitespace removed. */
  function TrimStart(s: string): (r: string)
    ensures |r| <= |s| && r == s[|s| - |r|..]
    ensures forall k :: 0 <= k < |s| - |r| ==> IsJsWhitespace(s[k])
    ensures r != [] ==> !IsJsWhitespace(r[0])
  {
    if s != [] && IsJsWhitespace(s[0]) then TrimStart(s[1..]) else s
  }

  /** `s` with its trailing whitespace removed. */
  function TrimEnd(s: string): (r: string)
    ensures |r| <= |s| && r == s[..|r|]
    ensures forall k :: |r| <= k < |s| ==> IsJsWhitespace(s[k])
    ensures r != [] ==> !IsJsWhitespace(r[|r| - 1])
  {
    if s != [] && IsJsWhitespace(s[|s| - 1]) then TrimEnd(s[..|s| - 1]) else s
  }

  /** `s.trim()`: the slice of `s` left once the whitespace at both ends is
      cut off; it neither starts nor ends with whitespace. */
  function Trim(s: string): (r: string)
    ensures exists i, j ::
              && 0 <= i <= j <= |s| && r == s[i..j]
              && (forall k :: 0 <= k < i ==> IsJsWhitespace(s[k]))
              && (forall k :: j <= k < |s| ==> IsJsWhitespace(s[k]))
    ensures r != [] ==> !IsJsWhitespace(r[0]) && !IsJsWhitespace(r[|r| - 1])
  {
    var t := TrimStart(s);
    var r := TrimEnd(t);
    assert r == s[|s| - |t|..|s| - |t| + |r|];
    r
  }

  /** `!s.trim()` holds exactly when `s` is all whitespace (the empty string
      included). */
  lemma TrimEmptyIff(s: string)
    ensures Trim(s) == [] <==> forall k :: 0 <= k < |s| ==> IsJsWhitespace(s[k])
  {
    if Trim(s) != [] {
      var i, j :| 0 <= i <= j <= |s| && Trim(s) == s[i..j];
      assert s[i] == Trim(s)[0];
    }
  }

  /** The value of a digit character in bases up to 36 ('0'-'9', then the
      letters in either case), or 36 for a character that is no digit. */
  function DigitValue(c: char): (v: nat)
    ensures v <= 36
  {
    if '0' <= c <= '9' then c as int - '0' as int
    else if 'a' <= c <= 'z' then c as int - 'a' as int + 10
    else if 'A' <= c <= 'Z' then c as int - 'A' as int + 10
    else 36
  }

  predicate IsDigit(c: char, radix: nat)
  {
    DigitValue(c) < radix
  }

  /** The length of the longest prefix of `s` made of digits of `radix`. */
  function DigitPrefixLength(s: string, radix: nat): (n: nat)
    ensures n <= |s|
    ensures forall k :: 0 <= k < n ==> IsDigit(s[k], radix)
    ensures n < |s| ==> !IsDigit(s[n], radix)
  {
    if s != [] && IsDigit(s[0], radix) then 1 + DigitPrefixLength(s[1..], radix) else 0
  }

  /** The number a digit string denotes in base `radix`. */
  function DigitsValue(ds: string, radix: nat): int
  {
    if ds == [] then 0
    else DigitsValue(ds[..|ds| - 1], radix) * radix + DigitValue(ds[|ds| - 1])
  }

  /** The digits `parseInt` reads after the sign: base 16 after a "0x" or
      "0X" prefix, base 10 otherwise, up to the first non-digit; `None` when
      there is no digit at all. */
  function ParseMagnitude(u: string): (r: Option<int>)
    ensures r.Some? ==> r.value >= 0
    ensures r.Some? ==> u != [] && IsDigit(u[0], 10)
    ensures u != [] && IsDigit(u[0], 10) && !(|u| >= 2 && u[0] == '0' && (u[1] == 'x' || u[1] == 'X')) ==> r.Some?
  {
    var hex := |u| >= 2 && u[0] == '0' && (u[1] == 'x' || u[1] == 'X');
    var radix := if hex then 16 else 10;
    var digits := if hex then u[2..] else u;
    var n := DigitPrefixLength(digits, radix);
    DigitsValueNonNegative(digits[..n], radix);
    if n == 0 then None else Some(DigitsValue(digits[..n], radix))
  }

  /** `parseInt(s)` with no radix: skip leading whitespace, take one optional
      sign, then read the magnitude; `None` is NaN. */
  function ParseInt(s: string): (r: Option<int>)
    ensures r.Some? ==>
      && TrimStart(s) != []
      && (TrimStart(s)[0] == '-' || TrimStart(s)[0] == '+' || IsDigit(TrimStart(s)[0], 10))
    ensures r.Some? && r.value < 0 ==> TrimStart(s)[0] == '-'
    ensures r.Some? && TrimStart(s)[0] == '-' ==> r.value <= 0
  {
    var t := TrimStart(s);
    var negative := t != [] && t[0] == '-';
    var u := if t != [] && (t[0] == '-' || t[0] == '+') then t[1..] else t;
    match ParseMagnitude(u)
    case None => None
    case Some(m) => Some(if negative then -m else m)
  }

  lemma {:induction false} DigitsValueNonNegative(ds: string, radix: nat)
    ensures DigitsValue(ds, radix) >= 0
  {
    if ds != [] {
      DigitsValueNonNegative(ds[..|ds| - 1], radix);
    }
  }

  /** The decimal numeral of `n`, as `String(n)` writes it. */
  function DecimalString(n: nat): (s: string)
    ensures s != []
  {
    if n < 10 then [('0' as int + n) as char]
    else DecimalString(n / 10) + [('0' as int + n % 10) as char]
  }

  /** A decimal numeral is made of decimal digits only. */
  lemma {:induction false} DecimalStringDigits(n: nat)
    ensures forall k :: 0 <= k < |DecimalString(n)| ==> IsDigit(DecimalString(n)[k], 10)
  {
    if n >= 10 {
      DecimalStringDigits(n / 10);
    }
  }

  lemma {:induction false} DecimalStringValue(n: nat)
    ensures DigitsValue(DecimalString(n), 10) == n
  {
    var s := DecimalString(n);
    if n >= 10 {
      DecimalStringValue(n / 10);
      assert s[..|s| - 1] == DecimalString(n / 10);
    } else {
      assert s[..0] == [];
    }
  }

  lemma {:induction false} AllDigitsPrefix(s: string, radix: nat)
    requires forall k :: 0 <= k < |s| ==> IsDigit(s[k], radix)
    ensures DigitPrefixLength(s, radix) == |s|
  {
    if s != [] {
      AllDigitsPrefix(s[1..], radix);
    }
  }

  /** A decimal numeral has no hexadecimal prefix and is read in full. */
  lemma DecimalMagnitude(n: nat)
    ensures ParseMagnitude(DecimalString(n)) == Some(n as int)
  {
    var s := DecimalString(n);
    DecimalStringValue(n);
    DecimalStringDigits(n);
    AllDigitsPrefix(s, 10);
    assert |s| >= 2 ==> s[1] != 'x' && s[1] != 'X';
    assert s[..|s|] == s;
  }

  /** `parseInt` reads back the decimal numeral of every natural number. */
  lemma ParseIntDecimal(n: nat)
    ensures ParseInt(DecimalString(n)) == Some(n as int)
  {
    var s := DecimalString(n);
    DecimalMagnitude(n);
    DecimalStringDigits(n);
    assert !IsJsWhitespace(s[0]) && s[0] != '-' && s[0] != '+';
    assert TrimStart(s) == s;
  }

  /** A leading minus sign negates the magnitude read after it. */
  lemma ParseIntMinus(s: string, m: int)
    ensures ParseMagnitude(s) == Some(m) ==> ParseInt("-" + s) == Some(-m)
    ensures ParseMagnitude(s).None? ==> ParseInt("-" + s).None?
  {
    var t := "-" + s;
    assert t[0] == '-' && t[1..] == s;
    assert TrimStart(t) == t;
  }

  /** ... and of its negation. */
  lemma ParseIntNegativeDecimal(n: nat)
    ensures ParseInt("-" + DecimalString(n)) == Some(-(n as int))
  {
    DecimalMagnitude(n);
    ParseIntMinus(DecimalString(n), n);
  }

  /** Typed amounts the spend form may see. */
  lemma ParseIntOfNumerals()
    ensures ParseInt("0") == Some(0)
    ensures ParseInt("5") == Some(5)
    ensures ParseInt("-5") == Some(-5)
  {
    assert ParseInt("0") == Some(0) by {
      ParseIntDecimal(0);
      assert DecimalString(0) == "0";
    }
    assert DecimalString(5) == "5";
    assert ParseInt("5") == Some(5) by {
      ParseIntDecimal(5);
    }
    assert ParseInt("-5") == Some(-5) by {
      ParseIntNegativeDecimal(5);
      assert "-" + DecimalString(5) == "-5";
    }
  }

  lemma ParseIntOfTwoDigits()
    ensures ParseInt("11") == Some(11)
  {
    var s := "11";
    assert !IsJsWhitespace(s[0]);
    assert TrimStart(s) == s;
    assert DigitPrefixLength(s, 10) == 2 by {
      assert s[1..] == "1" && "1"[1..] == "";
    }
    assert s[..2] == s;
    assert DigitsValue(s, 10) == 11 by {
      assert s[..1] == "1" && "1"[..0] == "";
    }
  }

  /** An empty field is NaN; digits stop at the first other character. */
  lemma ParseIntOfEmptyAndTrailing()
    ensures ParseInt("") == None
    ensures ParseInt("3x") == Some(3)
  {
    assert TrimStart("") == "";
    assert DigitPrefixLength("", 10) == 0;
    var s := "3x";
    assert TrimStart(s) == s;
    assert DigitPrefixLength(s, 10) == 1 by {
      assert s[1..] == "x";
      assert DigitPrefixLength("x", 10) == 0;
    }
    assert s[..1] == "3";
    assert DigitsValue("3", 10) == 3 by {
      assert "3"[..0] == [];
    }
  }
}
