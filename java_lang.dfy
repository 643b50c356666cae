/**
 * The parts of java.lang that LogEvent relies on, over ASCII text:
 * Integer.parseInt (radix 10), Integer.toString (what `"" + n` renders for
 * an int) and String.trim.
 */
module JavaLang {
  import opened Wrappers

  const MIN_INT: int := -0x8000_0000
  const MAX_INT: int := 0x7fff_ffff

  /** A Java `int`. */
  type Int32 = x: int | MIN_INT <= x <= MAX_INT

  // ---------------------------------------------------------------------
  // Decimal digits
  // ---------------------------------------------------------------------

  predicate IsDigit(c: char) {
    '0' <= c <= '9'
  }

  predicate AllDigits(s: string) {
    forall i :: 0 <= i < |s| ==> IsDigit(s[i])
  }

  function DigitValue(c: char): (v: nat)
    requires IsDigit(c)
    ensures v < 10
  {
    c as int - '0' as int
  }

  function DigitChar(v: nat): (c: char)
    requires v < 10
    ensures IsDigit(c) && DigitValue(c) == v
  {
    ('0' as int + v) as char
  }

  function Pow10(k: nat): (p: nat)
    ensures p >= 1
  {
    if k == 0 then 1 else 10 * Pow10(k - 1)
  }

  /** The value of a string of decimal digits, most significant digit first. */
  function DigitsValue(s: string): nat
    requires AllDigits(s)
    decreases |s|
  {
    if s == [] then 0 else DigitsValue(s[..|s| - 1]) * 10 + DigitValue(s[|s| - 1])
  }

  /** Appending digits shifts the value of the prefix left by their count. */
  lemma {:induction false} DigitsValueAppend(a: string, b: string)
    requires AllDigits(a) && AllDigits(b)
    ensures AllDigits(a + b)
    ensures DigitsValue(a + b) == DigitsValue(a) * Pow10(|b|) + DigitsValue(b)
    decreases |b|
  {
    if b != [] {
      var ab := a + b;
      var b' := b[..|b| - 1];
      assert ab[..|ab| - 1] == a + b';
      assert ab[|ab| - 1] == b[|b| - 1];
      DigitsValueAppend(a, b');
      var x, p, y, d := DigitsValue(a), Pow10(|b'|), DigitsValue(b'), DigitValue(b[|b| - 1]);
      assert DigitsValue(ab) == (x * p + y) * 10 + d;
      assert DigitsValue(b) == y * 10 + d;
      assert Pow10(|b|) == p * 10;
      MulShift(x, p, y, d);
    } else {
      assert a + b == a;
    }
  }

  /** The arithmetic step of DigitsValueAppend, kept apart so the solver sees it alone. */
  lemma MulShift(x: int, p: int, y: int, d: int)
    ensures (x * p + y) * 10 + d == x * (p * 10) + (y * 10 + d)
  {
  }

  /** A digit string that does not start with '0' has a positive value. */
  lemma {:induction false} DigitsValuePositive(s: string)
    requires |s| > 0 && AllDigits(s) && s[0] != '0'
    ensures DigitsValue(s) >= Pow10(|s| - 1)
    decreases |s|
  {
    if |s| > 1 {
      DigitsValuePositive(s[..|s| - 1]);
    }
  }

  // ---------------------------------------------------------------------
  // Integer.toString
  // ---------------------------------------------------------------------

  /** The decimal rendering of a non-negative number, without leading zeros. */
  function NatToDigits(n: nat): (s: string)
    ensures |s| > 0 && AllDigits(s)
    ensures s[0] == '0' <==> n == 0
    ensures DigitsValue(s) == n
    decreases n
  {
    if n < 10 then [DigitChar(n)]
    else
      var prefix := NatToDigits(n / 10);
      var s := prefix + [DigitChar(n % 10)];
      assert s[..|s| - 1] == prefix;
      s
  }

  /** `"" + n` for a Java int n: a '-' for negative values, then the digits of |n|. */
  function IntToString(n: int): (s: string)
    ensures |s| > 0 && s[0] != '+'
    ensures n >= 0 <==> AllDigits(s)
  {
    if n < 0 then "-" + NatToDigits(-n) else NatToDigits(n)
  }

  /** Digit strings are canonical when they have no leading zero, except for "0" itself. */
  lemma {:induction false} NatToDigitsOfValue(s: string)
    requires |s| > 0 && AllDigits(s) && (s[0] == '0' ==> s == "0")
    ensures NatToDigits(DigitsValue(s)) == s
    decreases |s|
  {
    if |s| > 1 {
      var prefix := s[..|s| - 1];
      DigitsValuePositive(prefix);
      NatToDigitsOfValue(prefix);
      var v := DigitsValue(s);
      assert v / 10 == DigitsValue(prefix) && v % 10 == DigitValue(s[|s| - 1]);
      assert v >= 10;
    }
  }

  // ---------------------------------------------------------------------
  // Integer.parseInt
  // ---------------------------------------------------------------------

  /** The digits after an optional leading sign. */
  function Unsigned(s: string): (d: string)
    ensures |s| - 1 <= |d| <= |s| && d == s[|s| - |d|..]
  {
    if |s| > 0 && (s[0] == '-' || s[0] == '+') then s[1..] else s
  }

  /**
   * Integer.parseInt(s): an optional '+' or '-', then at least one decimal
   * digit, with a value inside the int range. None stands for the
   * NumberFormatException thrown on every other string.
   */
  function ParseInt(s: string): (r: Option<Int32>)
    ensures r.Some? ==> |s| > 0 && IsDigit(s[|s| - 1])
    ensures r.Some? ==> IsDigit(s[0]) || s[0] == '-' || s[0] == '+'
  {
    var digits := Unsigned(s);
    if digits == [] || !AllDigits(digits) then None
    else
      var v: int := if s[0] == '-' then -(DigitsValue(digits) as int) else DigitsValue(digits);
      if MIN_INT <= v <= MAX_INT then Some(v) else None
  }

  /** Every rendered int parses back to itself. */
  lemma ParseIntOfIntToString(n: Int32)
    ensures ParseInt(IntToString(n)) == Some(n)
  {
    if n < 0 {
      ParseIntOfNegative(n);
    } else {
      ParseIntOfNonNegative(n);
    }
  }

  lemma ParseIntOfNegative(n: Int32)
    requires n < 0
    ensures ParseInt("-" + NatToDigits(-(n as int))) == Some(n)
  {
    var digits := NatToDigits(-(n as int));
    var s := "-" + digits;
    assert s[1..] == digits;
    assert Unsigned(s) == digits;
  }

  lemma ParseIntOfNonNegative(n: Int32)
    requires n >= 0
    ensures ParseInt(NatToDigits(n)) == Some(n)
  {
    ParseDigits(NatToDigits(n));
  }

  /** A plain digit string parses to its value when that value fits an int. */
  lemma ParseDigits(digits: string)
    requires |digits| > 0 && AllDigits(digits)
    ensures DigitsValue(digits) <= MAX_INT ==> ParseInt(digits) == Some(DigitsValue(digits))
    ensures DigitsValue(digits) > MAX_INT ==> ParseInt(digits) == None
  {
    assert digits[0] != '-' && digits[0] != '+' by {
      assert IsDigit(digits[0]);
    }
  }

  /** A digit string after '-' parses to minus its value when that fits an int. */
  lemma ParseNegated(digits: string)
    requires |digits| > 0 && AllDigits(digits)
    ensures DigitsValue(digits) <= -MIN_INT ==> ParseInt("-" + digits) == Some(-(DigitsValue(digits) as int))
    ensures DigitsValue(digits) > -MIN_INT ==> ParseInt("-" + digits) == None
  {
    var s := "-" + digits;
    assert s[0] == '-';
    assert Unsigned(s) == digits by {
      assert s[1..] == digits;
    }
  }

  /** A digit string after '+' parses to its value when that fits an int. */
  lemma ParsePlus(digits: string)
    requires |digits| > 0 && AllDigits(digits)
    ensures DigitsValue(digits) <= MAX_INT ==> ParseInt("+" + digits) == Some(DigitsValue(digits))
    ensures DigitsValue(digits) > MAX_INT ==> ParseInt("+" + digits) == None
  {
    var s := "+" + digits;
    assert s[0] == '+';
    assert Unsigned(s) == digits by {
      assert s[1..] == digits;
    }
  }

  /** A canonical int string: no '+', no leading zero, no "-0". */
  predicate IsCanonicalInt(s: string) {
    var digits := if |s| > 0 && s[0] == '-' then s[1..] else s;
    |digits| > 0 && AllDigits(digits) && (digits[0] == '0' ==> s == "0")
  }

  /** A canonical string that parses is exactly the rendering of its value. */
  lemma IntToStringOfParseInt(s: string)
    requires IsCanonicalInt(s) && ParseInt(s).Some?
    ensures IntToString(ParseInt(s).value) == s
  {
    var digits := Unsigned(s);
    NatToDigitsOfValue(digits);
    if s[0] == '-' {
      assert s == "-" + digits;
    }
  }

  // ---------------------------------------------------------------------
  // String.trim
  // ---------------------------------------------------------------------

  /** String.trim strips every character at or below U+0020 from both ends. */
  predicate IsTrimmed(c: char) {
    c <= ' '
  }

  function TrimStart(s: string): (r: string)
    ensures |r| <= |s| && r == s[|s| - |r|..]
    ensures forall i :: 0 <= i < |s| - |r| ==> IsTrimmed(s[i])
    ensures r != [] ==> !IsTrimmed(r[0])
    decreases |s|
  {
    if s != [] && IsTrimmed(s[0]) then TrimStart(s[1..]) else s
  }

  function TrimEnd(s: string): (r: string)
    ensures |r| <= |s| && r == s[..|r|]
    ensures forall i :: |r| <= i < |s| ==> IsTrimmed(s[i])
    ensures r != [] ==> !IsTrimmed(r[|r| - 1])
    decreases |s|
  {
    if s != [] && IsTrimmed(s[|s| - 1]) then TrimEnd(s[..|s| - 1]) else s
  }

  /** `s` is `r` at offset `a` with nothing but characters at or below U+0020 around it. */
  predicate PaddedAt(s: string, a: int, r: string) {
    && 0 <= a <= |s| - |r| && r == s[a..a + |r|]
    && (forall i :: 0 <= i < a ==> IsTrimmed(s[i]))
    && (forall i :: a + |r| <= i < |s| ==> IsTrimmed(s[i]))
  }

  /** String.trim: the middle of `s` left once both padded ends are cut off. */
  function Trim(s: string): (r: string)
    ensures |r| <= |s|
    ensures exists a :: PaddedAt(s, a, r)
    ensures r != [] ==> !IsTrimmed(r[0]) && !IsTrimmed(r[|r| - 1])
    ensures s != [] && !IsTrimmed(s[0]) && !IsTrimmed(s[|s| - 1]) ==> r == s
  {
    var t := TrimStart(s);
    var a := |s| - |t|;
    var r := TrimEnd(t);
    assert r == s[a..a + |r|];
    assert PaddedAt(s, a, r) by {
      forall i | a + |r| <= i < |s|
        ensures IsTrimmed(s[i])
      {
        assert s[i] == t[i - a];
      }
    }
    r
  }
}
