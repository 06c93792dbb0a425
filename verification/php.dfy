/**
 * The parts of PHP's value semantics that the admin controller's decisions
 * depend on: truthiness (`empty`, `!`, `?:`), `is_numeric`, the `(int)` cast,
 * `ucfirst` and `mb_substr`. Strings are sequences of code points.
 */
module Php {
  import opened Wrappers

  /** The scalar values the code tells apart (floats are not modelled). */
  datatype Scalar = Null | Bool(b: bool) | Int(i: int) | Str(s: string)

  /** `empty($v)`, which is also `!$v`: null, false, 0, "" and "0". */
  predicate Falsy(v: Scalar) {
    match v
    case Null => true
    case Bool(b) => !b
    case Int(i) => i == 0
    case Str(s) => s == "" || s == "0"
  }

  /** `$s ?: $fallback` on a string. */
  function OrElse(s: string, fallback: string): (r: string)
    ensures !Falsy(Str(s)) ==> r == s
    ensures Falsy(Str(s)) ==> r == fallback
  {
    if Falsy(Str(s)) then fallback else s
  }

  /** The whitespace PHP skips around a numeric string: space, \t, \n, \r, \v, \f. */
  predicate IsSpace(c: char) {
    c == ' ' || c == '\t' || c == '\n' || c == '\r' || c == '\U{B}' || c == '\U{C}'
  }

  predicate IsDigit(c: char) {
    '0' <= c <= '9'
  }

  predicate AllDigits(d: string) {
    forall i :: 0 <= i < |d| ==> IsDigit(d[i])
  }

  /** Length of the longest prefix of `s` whose characters all satisfy `p`. */
  function PrefixLength(s: string, p: char -> bool): (n: nat)
    ensures n <= |s|
    ensures forall i :: 0 <= i < n ==> p(s[i])
    ensures n < |s| ==> !p(s[n])
  {
    if s != [] && p(s[0]) then 1 + PrefixLength(s[1..], p) else 0
  }

  function DecimalValue(d: string): nat
    requires AllDigits(d)
  {
    if d == [] then 0 else 10 * DecimalValue(d[..|d| - 1]) + ((d[|d| - 1] as int) - ('0' as int))
  }

  function Pow10(k: nat): (p: nat)
    ensures p >= 1
  {
    if k == 0 then 1 else 10 * Pow10(k - 1)
  }

  /**
   * The leading number of a string as PHP reads it: whitespace, an optional
   * sign, a decimal mantissa (digits, an optional point, digits; at least one
   * digit) and an optional exponent. Its value is
   * (-1 if negative) * mantissa * 10^scale; `length` counts the characters read.
   */
  datatype NumericPrefix = NumericPrefix(negative: bool, mantissa: nat, scale: int, length: nat)

  /**
   * The decimal mantissa at the start of `u`: how many characters it takes,
   * its digits with the point removed, and how many of them follow the point.
   * A mantissa needs at least one digit; (0, "", 0) when there is none.
   */
  function ReadMantissa(u: string): (m: (nat, string, nat))
    ensures m.0 <= |u| && AllDigits(m.1) && m.2 <= |m.1|
    ensures m.0 == 0 <==> m.1 == []
    ensures forall i :: 0 <= i < m.0 ==> IsDigit(u[i]) || u[i] == '.'
  {
    var a := PrefixLength(u, IsDigit);
    if a < |u| && u[a] == '.' then ReadFraction(u, a) else (a, u[..a], 0)
  }

  /** The mantissa when its `a` leading digits are followed by a point. */
  function ReadFraction(u: string, a: nat): (m: (nat, string, nat))
    requires a < |u| && u[a] == '.' && AllDigits(u[..a])
    ensures m.0 <= |u| && AllDigits(m.1) && m.2 <= |m.1|
    ensures m.0 == 0 <==> m.1 == []
    ensures forall i :: 0 <= i < m.0 ==> IsDigit(u[i]) || u[i] == '.'
  {
    var rest := u[a + 1..];
    var b := PrefixLength(rest, IsDigit);
    if a + b == 0 then (0, "", 0)
    else
      var fraction := rest[..b];
      assert AllDigits(fraction);
      assert forall i :: a < i < a + 1 + b ==> u[i] == fraction[i - a - 1];
      AllDigitsJoin(u[..a], fraction);
      (a + 1 + b, u[..a] + fraction, b)
  }

  /**
   * What `ReadMantissa` reads is either digits alone or digits, one point and
   * digits (with a digit on at least one side of the point); it stops before
   * the next digit, and it reads nothing exactly when `u` starts with neither
   * a digit nor a point and a digit.
   */
  lemma MantissaShape(u: string)
    ensures var m := ReadMantissa(u);
      && (m.0 == 0 <==> (u == [] || !IsDigit(u[0])) && !(|u| > 1 && u[0] == '.' && IsDigit(u[1])))
      && (m.0 > 0 ==>
        || (m.0 == |m.1| && m.2 == 0 && u[..m.0] == m.1 && (m.0 < |u| ==> u[m.0] != '.'))
        || (m.0 == |m.1| + 1 && u[..m.0] == m.1[..|m.1| - m.2] + "." + m.1[|m.1| - m.2..]))
      && (m.0 < |u| ==> !IsDigit(u[m.0]))
  {
    var a := PrefixLength(u, IsDigit);
    if a < |u| && u[a] == '.' {
      FractionShape(u, a);
    }
  }

  /** The shape of a mantissa whose `a` leading digits are followed by a point. */
  lemma FractionShape(u: string, a: nat)
    requires a < |u| && u[a] == '.' && AllDigits(u[..a])
    ensures var m := ReadFraction(u, a);
      && (m.0 == 0 <==> a == 0 && !(a + 1 < |u| && IsDigit(u[a + 1])))
      && (m.0 > 0 ==> m.0 == |m.1| + 1 && |m.1| - m.2 == a && u[..m.0] == m.1[..a] + "." + m.1[a..])
      && (m.0 < |u| ==> !IsDigit(u[m.0]))
  {
    var rest := u[a + 1..];
    var b := PrefixLength(rest, IsDigit);
    if a + b > 0 {
      var fraction := rest[..b];
      assert a + 1 + b < |u| ==> u[a + 1 + b] == rest[b];
      var digits := u[..a] + fraction;
      assert digits[..a] == u[..a] && digits[a..] == fraction;
      assert u[..a + 1 + b] == u[..a] + "." + fraction;
    }
  }

  lemma AllDigitsJoin(x: string, y: string)
    requires AllDigits(x) && AllDigits(y)
    ensures AllDigits(x + y)
  {
    assert forall i :: |x| <= i < |x + y| ==> (x + y)[i] == y[i - |x|];
  }

  /** Length and value of an exponent (`e` or `E`, an optional sign, digits) at the start of `r`; (0, 0) if there is none. */
  function ReadExponent(r: string): (e: (nat, int))
    ensures e.0 <= |r|
    ensures e.0 == 0 ==> e.1 == 0
    ensures forall i :: 0 <= i < e.0 ==> IsNumberChar(r[i])
  {
    if r != [] && (r[0] == 'e' || r[0] == 'E') then
      var k := if |r| > 1 && (r[1] == '+' || r[1] == '-') then 2 else 1;
      var d := PrefixLength(r[k..], IsDigit);
      if d == 0 then (0, 0)
      else
        assert forall i :: k <= i < k + d ==> r[i] == r[k..][i - k];
        var v: int := DecimalValue(r[k..k + d]);
        (k + d, if k == 2 && r[1] == '-' then -v else v)
    else (0, 0)
  }

  /** The number at the start of `s`, after leading whitespace. */
  function ReadNumericPrefix(s: string): (r: Option<NumericPrefix>)
    ensures r.Some? ==> 0 < r.value.length <= |s|
  {
    var lead := PrefixLength(s, IsSpace);
    ReadSigned(s[lead..], lead)
  }

  /** An optional sign, then an unsigned number; `offset` characters were read before `t`. */
  function ReadSigned(t: string, offset: nat): (r: Option<NumericPrefix>)
    ensures r.Some? ==> offset < r.value.length <= offset + |t|
  {
    if t != [] && (t[0] == '+' || t[0] == '-') then ReadUnsigned(t[1..], t[0] == '-', offset + 1)
    else ReadUnsigned(t, false, offset)
  }

  /** A mantissa and an optional exponent; `offset` characters were read before `u`. */
  function ReadUnsigned(u: string, negative: bool, offset: nat): (r: Option<NumericPrefix>)
    ensures r.Some? ==> offset < r.value.length <= offset + |u|
  {
    var m := ReadMantissa(u);
    if m.0 == 0 then None
    else
      var e := ReadExponent(u[m.0..]);
      Some(NumericPrefix(negative, DecimalValue(m.1), e.1 - m.2, offset + m.0 + e.0))
  }

  /** `is_numeric($s)` for a string: a number with optional whitespace before and after it. */
  predicate IsNumericString(s: string) {
    match ReadNumericPrefix(s)
    case None => false
    case Some(p) => PrefixLength(s[p.length..], IsSpace) == |s| - p.length
  }

  /** `(int) $s`: the leading number, truncated toward zero (0 when there is none). */
  function StringToInt(s: string): (n: int)
    ensures ReadNumericPrefix(s).None? ==> n == 0
    ensures n < 0 ==> ReadNumericPrefix(s).Some? && ReadNumericPrefix(s).value.negative
    ensures n > 0 ==> ReadNumericPrefix(s).Some? && !ReadNumericPrefix(s).value.negative
  {
    match ReadNumericPrefix(s)
    case None => 0
    case Some(p) => if p.negative then -(Magnitude(p) as int) else Magnitude(p)
  }

  /** The size of a numeric prefix, mantissa * 10^scale, truncated to an integer. */
  function Magnitude(p: NumericPrefix): nat {
    if p.scale >= 0 then ScaleUp(p.mantissa, p.scale) else ScaleDown(p.mantissa, -p.scale)
  }

  /** m * 10^k. */
  function ScaleUp(m: nat, k: nat): nat {
    if k == 0 then m else 10 * ScaleUp(m, k - 1)
  }

  /** m / 10^k, rounded down, one decimal place at a time. */
  function ScaleDown(m: nat, k: nat): nat {
    if k == 0 then m else ScaleDown(m / 10, k - 1)
  }

  lemma {:induction false} ScaleUpProduct(m: nat, k: nat)
    ensures ScaleUp(m, k) == m * Pow10(k)
  {
    if k > 0 {
      ScaleUpProduct(m, k - 1);
      assert 10 * (m * Pow10(k - 1)) == m * (10 * Pow10(k - 1));
    }
  }

  /** `is_numeric($v)`. */
  predicate IsNumeric(v: Scalar) {
    match v
    case Int(_) => true
    case Str(s) => IsNumericString(s)
    case _ => false
  }

  /** `(int) $v`. */
  function IntCast(v: Scalar): int {
    match v
    case Null => 0
    case Bool(b) => if b then 1 else 0
    case Int(i) => i
    case Str(s) => StringToInt(s)
  }

  /** `ucfirst($s)`: an ASCII lower-case first letter becomes upper case; nothing else changes. */
  function Ucfirst(s: string): (r: string)
    ensures |r| == |s| && (s != [] ==> r[1..] == s[1..])
    ensures s != [] && 'a' <= s[0] <= 'z' ==> r[0] == (s[0] as int - 32) as char
    ensures s != [] && !('a' <= s[0] <= 'z') ==> r == s
  {
    if s != [] && 'a' <= s[0] <= 'z' then [(s[0] as int - 32) as char] + s[1..] else s
  }

  /** `mb_substr($s, 0, $n)`. */
  function MbPrefix(s: string, n: nat): (r: string)
    ensures |r| <= n && r <= s
    ensures |s| <= n ==> r == s
    ensures |s| > n ==> |r| == n
  {
    if |s| <= n then s else s[..n]
  }

  /** The characters a numeric string can contain. */
  predicate IsNumberChar(c: char) {
    IsSpace(c) || IsDigit(c) || c == '+' || c == '-' || c == '.' || c == 'e' || c == 'E'
  }

  /** A non-empty run of decimal digits is numeric, and `(int)` reads its decimal value. */
  lemma DigitStringCast(d: string)
    requires d != [] && AllDigits(d)
    ensures IsNumericString(d) && StringToInt(d) == DecimalValue(d)
  {
    assert d + [] == d;
    DigitLedPrefix(d);
    DigitsUnsigned(d, [], false, 0);
    assert d[|d|..] == [];
  }

  /** The characters an unsigned number reads are mantissa and exponent characters. */
  lemma UnsignedChars(u: string, negative: bool, offset: nat)
    requires ReadUnsigned(u, negative, offset).Some?
    ensures forall i :: 0 <= i < ReadUnsigned(u, negative, offset).value.length - offset ==> IsNumberChar(u[i])
  {
    var m := ReadMantissa(u);
    var r := u[m.0..];
    var e := ReadExponent(r);
    forall i | 0 <= i < m.0 + e.0
      ensures IsNumberChar(u[i])
    {
      if i >= m.0 {
        assert u[i] == r[i - m.0];
      }
    }
  }

  /** The characters a signed number reads are a sign, mantissa characters and exponent characters. */
  lemma SignedChars(t: string, offset: nat)
    requires ReadSigned(t, offset).Some?
    ensures forall i :: 0 <= i < ReadSigned(t, offset).value.length - offset ==> IsNumberChar(t[i])
  {
    if t != [] && (t[0] == '+' || t[0] == '-') {
      UnsignedChars(t[1..], t[0] == '-', offset + 1);
      forall i | 1 <= i < ReadSigned(t, offset).value.length - offset ensures IsNumberChar(t[i]) {
        assert t[i] == t[1..][i - 1];
      }
    } else {
      UnsignedChars(t, false, offset);
    }
  }

  /** The characters of a numeric prefix are whitespace, a sign, mantissa characters and exponent characters. */
  lemma NumericPrefixChars(s: string)
    requires ReadNumericPrefix(s).Some?
    ensures forall i :: 0 <= i < ReadNumericPrefix(s).value.length ==> IsNumberChar(s[i])
  {
    var lead := PrefixLength(s, IsSpace);
    var t := s[lead..];
    SignedChars(t, lead);
    forall i | lead <= i < ReadNumericPrefix(s).value.length ensures IsNumberChar(s[i]) {
      assert s[i] == t[i - lead];
    }
  }

  /** A number that starts with a digit is read from its first character on, unsigned. */
  lemma DigitLedPrefix(s: string)
    requires s != [] && IsDigit(s[0])
    ensures ReadNumericPrefix(s) == ReadUnsigned(s, false, 0)
  {
    assert PrefixLength(s, IsSpace) == 0;
    assert s[0..] == s;
  }

  /** Digits followed by something other than a digit or a point are the whole mantissa. */
  lemma DigitsMantissa(d: string, rest: string)
    requires AllDigits(d)
    requires rest != [] ==> !IsDigit(rest[0]) && rest[0] != '.'
    ensures ReadMantissa(d + rest) == (|d|, d, 0)
  {
    var s := d + rest;
    assert forall i :: 0 <= i < |d| ==> s[i] == d[i];
    assert |d| < |s| ==> s[|d|] == rest[0];
    assert PrefixLength(s, IsDigit) == |d|;
    assert s[..|d|] == d;
  }

  /** `e` followed by digits and nothing else is an exponent with the digits' value. */
  lemma DigitsExponent(x: string)
    requires x != [] && AllDigits(x)
    ensures ReadExponent("e" + x).0 == 1 + |x|
    ensures ReadExponent("e" + x).1 == DecimalValue(x)
  {
    var r := "e" + x;
    assert r[1..] == x;
    assert PrefixLength(x, IsDigit) == |x|;
    assert r[1..1 + |x|] == x;
  }

  /** A signed exponent: `e`, then `+` or `-`, then digits; the value carries the sign. */
  lemma SignedExponent(c: char, x: string)
    requires c == '+' || c == '-'
    requires x != [] && AllDigits(x)
    ensures ReadExponent(['e', c] + x).0 == 2 + |x|
    ensures ReadExponent(['e', c] + x).1 == (if c == '-' then -(DecimalValue(x) as int) else DecimalValue(x))
  {
    var r := ['e', c] + x;
    assert r[0] == 'e' && |r| > 1 && r[1] == c;
    assert r[2..] == x && r[2..2 + |x|] == x;
    assert PrefixLength(x, IsDigit) == |x| by {
      assert !(PrefixLength(x, IsDigit) < |x|);
    }
  }

  /** Digits followed by something other than a digit or a point: the digits' value, scaled by the exponent after them. */
  lemma DigitsUnsigned(d: string, rest: string, negative: bool, offset: nat)
    requires d != [] && AllDigits(d)
    requires rest != [] ==> !IsDigit(rest[0]) && rest[0] != '.'
    ensures ReadUnsigned(d + rest, negative, offset).Some?
    ensures ReadUnsigned(d + rest, negative, offset).value
      == NumericPrefix(negative, DecimalValue(d), ReadExponent(rest).1, offset + |d| + ReadExponent(rest).0)
  {
    DigitsMantissa(d, rest);
    assert (d + rest)[|d|..] == rest;
  }

  /** Digits, `e` and digits read as one unsigned number whose scale is the exponent's value. */
  lemma ExponentPrefix(d: string, x: string)
    requires d != [] && AllDigits(d) && x != [] && AllDigits(x)
    ensures ReadNumericPrefix(d + "e" + x).Some?
    ensures var p := ReadNumericPrefix(d + "e" + x).value;
      !p.negative && p.mantissa == DecimalValue(d) && p.scale == DecimalValue(x) && p.length == |d| + 1 + |x|
  {
    var r := "e" + x;
    var s := d + "e" + x;
    assert s == d + r;
    DigitLedPrefix(s);
    DigitsUnsigned(d, r, false, 0);
    DigitsExponent(x);
  }

  /** `(int)` of digits, `e` and digits scales by the power of ten: "1e3" casts to 1000. */
  lemma ExponentCast(d: string, x: string)
    requires d != [] && AllDigits(d) && x != [] && AllDigits(x)
    ensures IsNumericString(d + "e" + x)
    ensures StringToInt(d + "e" + x) == DecimalValue(d) * Pow10(DecimalValue(x))
  {
    var s := d + "e" + x;
    ExponentPrefix(d, x);
    ScaleUpProduct(DecimalValue(d), DecimalValue(x));
    assert s[|s|..] == [];
  }

  /** A numeric string holds nothing but whitespace, digits, signs, a point and an exponent mark. */
  lemma NumericStringChars(s: string)
    requires IsNumericString(s)
    ensures forall i :: 0 <= i < |s| ==> IsNumberChar(s[i])
  {
    var p := ReadNumericPrefix(s).value;
    NumericPrefixChars(s);
    var tail := s[p.length..];
    assert PrefixLength(tail, IsSpace) == |tail|;
    forall i | p.length <= i < |s|
      ensures IsNumberChar(s[i])
    {
      assert s[i] == tail[i - p.length];
      assert IsSpace(tail[i - p.length]);
    }
  }

  /** Where the mantissa starts: after leading whitespace and an optional sign. */
  function MantissaStart(s: string): (k: nat)
    ensures k <= |s|
  {
    var lead := PrefixLength(s, IsSpace);
    if lead < |s| && (s[lead] == '+' || s[lead] == '-') then lead + 1 else lead
  }

  /** An unsigned number is a mantissa and then an exponent. */
  lemma UnsignedFields(u: string, negative: bool, offset: nat)
    ensures ReadUnsigned(u, negative, offset).Some? <==> ReadMantissa(u).0 > 0
    ensures ReadUnsigned(u, negative, offset).Some? ==>
      && ReadUnsigned(u, negative, offset).value.negative == negative
      && ReadUnsigned(u, negative, offset).value.mantissa == DecimalValue(ReadMantissa(u).1)
      && ReadUnsigned(u, negative, offset).value.scale == ReadExponent(u[ReadMantissa(u).0..]).1 - ReadMantissa(u).2
      && ReadUnsigned(u, negative, offset).value.length == offset + ReadMantissa(u).0 + ReadExponent(u[ReadMantissa(u).0..]).0
  {
  }

  /** The number is read as an unsigned one from where the mantissa starts, negative after a minus. */
  lemma NumericPrefixUnsigned(s: string)
    ensures MantissaStart(s) > 0 ==> ReadNumericPrefix(s) == ReadUnsigned(s[MantissaStart(s)..], s[MantissaStart(s) - 1] == '-', MantissaStart(s))
    ensures MantissaStart(s) == 0 ==> ReadNumericPrefix(s) == ReadUnsigned(s, false, 0)
  {
    var lead := PrefixLength(s, IsSpace);
    var t := s[lead..];
    if lead < |s| && (s[lead] == '+' || s[lead] == '-') {
      assert t[0] == s[lead];
      assert t[1..] == s[lead + 1..];
    } else if lead > 0 {
      assert !IsSpace('-') && s[lead - 1] != '-';
    } else {
      assert t == s;
    }
  }

  /**
   * The layout `ReadNumericPrefix` reads: leading whitespace, an optional sign,
   * a mantissa and an optional exponent. There is a number exactly when the
   * mantissa has a digit; a minus right before the mantissa makes it
   * negative, the mantissa's digits give `mantissa`, and the exponent less
   * the number of fraction digits gives `scale`.
   */
  lemma NumericPrefixShape(s: string)
    ensures ReadNumericPrefix(s).Some? <==> ReadMantissa(s[MantissaStart(s)..]).0 > 0
    ensures ReadNumericPrefix(s).Some? ==>
      && (ReadNumericPrefix(s).value.negative <==> MantissaStart(s) > 0 && s[MantissaStart(s) - 1] == '-')
      && ReadNumericPrefix(s).value.mantissa == DecimalValue(ReadMantissa(s[MantissaStart(s)..]).1)
      && ReadNumericPrefix(s).value.scale
        == ReadExponent(s[MantissaStart(s) + ReadMantissa(s[MantissaStart(s)..]).0..]).1 - ReadMantissa(s[MantissaStart(s)..]).2
      && ReadNumericPrefix(s).value.length
        == MantissaStart(s) + ReadMantissa(s[MantissaStart(s)..]).0 + ReadExponent(s[MantissaStart(s) + ReadMantissa(s[MantissaStart(s)..]).0..]).0
  {
    var k := MantissaStart(s);
    var u := s[k..];
    NumericPrefixUnsigned(s);
    UnsignedFields(u, k > 0 && s[k - 1] == '-', k);
    assert u[ReadMantissa(u).0..] == s[k + ReadMantissa(u).0..];
  }

  predicate AllSpace(w: string) {
    forall i :: 0 <= i < |w| ==> IsSpace(w[i])
  }

  /** A string of whitespace is skipped whole. */
  lemma AllSpacePrefix(w: string)
    requires AllSpace(w)
    ensures PrefixLength(w, IsSpace) == |w|
  {
  }

  /** Whitespace stops at the first character that is not whitespace. */
  lemma SpacePrefixStops(w: string, rest: string)
    requires AllSpace(w) && rest != [] && !IsSpace(rest[0])
    ensures PrefixLength(w + rest, IsSpace) == |w|
  {
    assert forall i :: 0 <= i < |w| ==> (w + rest)[i] == w[i];
    assert (w + rest)[|w|] == rest[0];
  }

  /** After leading whitespace the number is read from the first other character on. */
  lemma SpaceLedPrefix(w: string, t: string)
    requires AllSpace(w) && t != [] && !IsSpace(t[0])
    ensures ReadNumericPrefix(w + t) == ReadSigned(t, |w|)
  {
    SpacePrefixStops(w, t);
    assert (w + t)[|w|..] == t;
  }

  /** Whitespace holds no exponent. */
  lemma SpaceExponent(w: string)
    requires AllSpace(w)
    ensures ReadExponent(w).0 == 0 && ReadExponent(w).1 == 0
  {
  }

  /** A leading sign is consumed and decides the sign of the number. */
  lemma SignUnfold(c: char, u: string, offset: nat)
    requires c == '+' || c == '-'
    ensures ReadSigned([c] + u, offset) == ReadUnsigned(u, c == '-', offset + 1)
  {
    assert ([c] + u)[1..] == u;
  }

  /** Digits followed by whitespace: their value, with no scale. */
  lemma DigitsSpaces(d: string, w: string, negative: bool, offset: nat)
    requires AllSpace(w) && d != [] && AllDigits(d)
    ensures ReadUnsigned(d + w, negative, offset).Some?
    ensures ReadUnsigned(d + w, negative, offset).value == NumericPrefix(negative, DecimalValue(d), 0, offset + |d|)
  {
    assert w != [] ==> !IsDigit(w[0]) && w[0] != '.' by {
      if w != [] {
        assert IsSpace(w[0]);
      }
    }
    SpaceExponent(w);
    DigitsUnsigned(d, w, negative, offset);
  }

  /** Unsigned digits followed by whitespace: a non-negative number with no scale. */
  lemma DigitsRead(d: string, w: string, offset: nat)
    requires AllSpace(w) && d != [] && AllDigits(d)
    ensures ReadSigned(d + w, offset).Some?
    ensures ReadSigned(d + w, offset).value == NumericPrefix(false, DecimalValue(d), 0, offset + |d|)
  {
    assert (d + w)[0] == d[0];
    DigitsSpaces(d, w, false, offset);
  }

  /** A sign, digits and whitespace: negative exactly after a minus, with no scale. */
  lemma SignDigitsRead(c: char, d: string, w: string, offset: nat)
    requires c == '+' || c == '-'
    requires AllSpace(w) && d != [] && AllDigits(d)
    ensures ReadSigned([c] + d + w, offset).Some?
    ensures ReadSigned([c] + d + w, offset).value == NumericPrefix(c == '-', DecimalValue(d), 0, offset + 1 + |d|)
  {
    assert [c] + d + w == [c] + (d + w);
    SignUnfold(c, d + w, offset);
    DigitsSpaces(d, w, c == '-', offset + 1);
  }

  /** Digits with whitespace on either side are numeric, and `(int)` reads their value: " 12 " casts to 12. */
  lemma PaddedDigitsCast(w1: string, d: string, w2: string)
    requires AllSpace(w1) && AllSpace(w2) && d != [] && AllDigits(d)
    ensures IsNumericString(w1 + d + w2)
    ensures StringToInt(w1 + d + w2) == DecimalValue(d)
  {
    var s := w1 + d + w2;
    assert s == w1 + (d + w2);
    SpaceLedPrefix(w1, d + w2);
    DigitsRead(d, w2, |w1|);
    assert s[|w1| + |d|..] == w2;
    AllSpacePrefix(w2);
  }

  /**
   * A sign and digits with whitespace on either side are numeric, and `(int)`
   * reads their value with the sign: " -12 " casts to -12.
   */
  lemma PaddedSignedCast(w1: string, c: char, d: string, w2: string)
    requires c == '+' || c == '-'
    requires AllSpace(w1) && AllSpace(w2) && d != [] && AllDigits(d)
    ensures IsNumericString(w1 + [c] + d + w2)
    ensures StringToInt(w1 + [c] + d + w2) == if c == '-' then -(DecimalValue(d) as int) else DecimalValue(d)
  {
    var s := w1 + [c] + d + w2;
    assert s == w1 + ([c] + d + w2);
    SpaceLedPrefix(w1, [c] + d + w2);
    SignDigitsRead(c, d, w2, |w1|);
    assert s[|w1| + 1 + |d|..] == w2;
    AllSpacePrefix(w2);
  }

  /** Dropping k trailing digits of a digit string is dividing its value by 10^k. */
  lemma {:induction false} DropDigits(d: string, f: string)
    requires AllDigits(d) && AllDigits(f)
    ensures AllDigits(d + f)
    ensures ScaleDown(DecimalValue(d + f), |f|) == DecimalValue(d)
  {
    AllDigitsJoin(d, f);
    if f != [] {
      var f0 := f[..|f| - 1];
      assert AllDigits(f0);
      assert (d + f)[..|d + f| - 1] == d + f0;
      assert DecimalValue(d + f) / 10 == DecimalValue(d + f0);
      DropDigits(d, f0);
    } else {
      assert d + f == d;
    }
  }

  /**
   * Digits, a point and digits are numeric, and `(int)` drops the fraction:
   * "1.9" casts to 1.
   */
  lemma FractionCast(d: string, f: string)
    requires d != [] && AllDigits(d) && AllDigits(f)
    ensures IsNumericString(d + "." + f)
    ensures StringToInt(d + "." + f) == DecimalValue(d)
  {
    var s := d + "." + f;
    DigitLedPrefix(s);
    assert forall i :: 0 <= i < |d| ==> s[i] == d[i];
    assert s[|d|] == '.';
    assert PrefixLength(s, IsDigit) == |d|;
    assert s[..|d|] == d;
    assert s[|d| + 1..] == f;
    assert PrefixLength(f, IsDigit) == |f|;
    assert f[..|f|] == f;
    var m := ReadMantissa(s);
    assert m.0 == |s| && m.1 == d + f && m.2 == |f|;
    assert s[m.0..] == [];
    DropDigits(d, f);
  }

  /**
   * Digits followed by a character no number contains: not numeric, and
   * `(int)` reads the digits: "12abc" casts to 12.
   */
  lemma TrailingJunkCast(d: string, rest: string)
    requires d != [] && AllDigits(d)
    requires rest != [] && !IsNumberChar(rest[0])
    ensures !IsNumericString(d + rest)
    ensures StringToInt(d + rest) == DecimalValue(d)
  {
    var s := d + rest;
    DigitLedPrefix(s);
    DigitsUnsigned(d, rest, false, 0);
    assert ReadExponent(rest).0 == 0;
    assert s[|d|..] == rest;
  }

  lemma TwelveValue()
    ensures AllDigits("12") && DecimalValue("12") == 12
  {
    assert "12"[..1] == "1";
    assert "1"[..0] == "";
  }

  /** " -12 " is numeric and casts to -12. */
  lemma SignedCastExample()
    ensures IsNumericString(" -12 ") && StringToInt(" -12 ") == -12
  {
    assert " " + ['-'] + "12" + " " == " -12 ";
    assert AllSpace(" ") && AllDigits("12") && DecimalValue("12") == 12 by {
      TwelveValue();
    }
    PaddedSignedCast(" ", '-', "12", " ");
  }

  /** "1.9" is numeric and casts to 1. */
  lemma FractionCastExample()
    ensures IsNumericString("1.9") && StringToInt("1.9") == 1
  {
    assert DecimalValue("1") == 1 by {
      assert "1"[..0] == "";
    }
    FractionCast("1", "9");
    assert "1" + "." + "9" == "1.9";
  }

  /** "12abc" is not numeric and casts to 12. */
  lemma TrailingJunkExample()
    ensures !IsNumericString("12abc") && StringToInt("12abc") == 12
  {
    TwelveValue();
    assert !IsNumberChar("abc"[0]);
    TrailingJunkCast("12", "abc");
    assert "12" + "abc" == "12abc";
  }

  /** Only null, false, 0, "" and "0" are falsy: "00", " " and "0.0" are not. */
  lemma FalsyStrings()
    ensures Falsy(Str("")) && Falsy(Str("0"))
    ensures !Falsy(Str("00")) && !Falsy(Str(" ")) && !Falsy(Str("0.0")) && !Falsy(Str("false"))
  {
  }
}
