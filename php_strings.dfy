/**
 * The PHP string operations the gateways rely on: strlen, integer-to-string
 * conversion, sprintf's "%0Ns" and "%X", implode/explode, strtoupper,
 * strcasecmp and the loose comparison `$value == 0`.
 *
 * A PHP string is a sequence of bytes. The model writes it as a Dafny string
 * whose characters are encoded as UTF-8, so the byte length that strlen
 * reports is `ByteLength`, not `|s|`.
 */
module PhpStrings {
  import opened Wrappers

  // ---------------------------------------------------------------- strlen

  /** Number of bytes in the UTF-8 encoding of one character. */
  function CharWidth(c: char): (w: nat)
    ensures 1 <= w <= 4
    ensures w == 1 <==> c as int < 0x80
  {
    if c as int < 0x80 then 1
    else if c as int < 0x800 then 2
    else if c as int < 0x10000 then 3
    else 4
  }

  /** strlen(s): the number of bytes of s. */
  function ByteLength(s: string): (n: nat)
    ensures n >= |s|
    ensures n == 0 <==> s == []
  {
    if s == [] then 0 else CharWidth(s[0]) + ByteLength(s[1..])
  }

  /** strlen is additive over concatenation. */
  lemma {:induction false} ByteLengthAppend(a: string, b: string)
    ensures ByteLength(a + b) == ByteLength(a) + ByteLength(b)
  {
    if a == [] {
      assert a + b == b;
    } else {
      assert (a + b)[1..] == a[1..] + b;
      ByteLengthAppend(a[1..], b);
    }
  }

  predicate IsAscii(s: string) {
    forall i | 0 <= i < |s| :: s[i] as int < 0x80
  }

  /** On plain ASCII text strlen counts characters. */
  lemma {:induction false} AsciiByteLength(s: string)
    requires IsAscii(s)
    ensures ByteLength(s) == |s|
  {
    if s != [] {
      assert IsAscii(s[1..]) by {
        forall i | 0 <= i < |s| - 1 ensures s[1..][i] as int < 0x80 {
          assert s[1..][i] == s[i + 1];
        }
      }
      AsciiByteLength(s[1..]);
    }
  }

  // ----------------------------------------------- integers in decimal text

  predicate IsDigit(c: char) {
    '0' <= c <= '9'
  }

  predicate IsDigits(s: string) {
    forall i | 0 <= i < |s| :: IsDigit(s[i])
  }

  function DigitChar(d: int): (c: char)
    requires 0 <= d < 10
    ensures IsDigit(c) && c as int - '0' as int == d
  {
    ('0' as int + d) as char
  }

  /**
   * The decimal text PHP produces when an integer is used as a string
   * (as in `strlen($v) . $v`): no sign, no leading zero.
   */
  function Decimal(n: nat): (s: string)
    ensures |s| >= 1 && IsDigits(s)
    ensures (s[0] == '0') == (n == 0)
    decreases n
  {
    if n < 10 then [DigitChar(n)] else Decimal(n / 10) + [DigitChar(n % 10)]
  }

  /** The number a string of decimal digits denotes. */
  function DigitsValue(s: string): nat
    requires IsDigits(s)
  {
    if s == [] then 0
    else DigitsValue(s[..|s| - 1]) * 10 + (s[|s| - 1] as int - '0' as int)
  }

  /** Reading the decimal text back gives the number: Decimal is injective. */
  lemma {:induction false} DecimalRoundTrip(n: nat)
    ensures DigitsValue(Decimal(n)) == n
    decreases n
  {
    if n >= 10 {
      var s := Decimal(n);
      assert s[..|s| - 1] == Decimal(n / 10);
      DecimalRoundTrip(n / 10);
    }
  }

  // ------------------------------------------------------- sprintf("%0Ns")

  /** A run of k '0' characters. */
  function Zeros(k: nat): (z: string)
    ensures |z| == k && IsAscii(z)
    ensures forall i | 0 <= i < k :: z[i] == '0'
  {
    if k == 0 then "" else Zeros(k - 1) + "0"
  }

  /**
   * sprintf("%0<width>s", s): s left-padded with '0' up to `width` bytes;
   * a longer s is returned as it is.
   */
  function PadLeft(s: string, width: nat): (r: string)
    ensures ByteLength(r) == if ByteLength(s) >= width then ByteLength(s) else width
    ensures |r| >= |s| && r[|r| - |s|..] == s
    ensures forall i | 0 <= i < |r| - |s| :: r[i] == '0'
  {
    if ByteLength(s) >= width then
      assert s[0..] == s;
      s
    else
      var z := Zeros(width - ByteLength(s));
      ByteLengthAppend(z, s);
      AsciiByteLength(z);
      assert (z + s)[|z|..] == s;
      z + s
  }

  // ----------------------------------------------------------- sprintf("%X")

  predicate IsUpperHexDigit(c: char) {
    '0' <= c <= '9' || 'A' <= c <= 'F'
  }

  predicate IsUpperHex(s: string) {
    forall i | 0 <= i < |s| :: IsUpperHexDigit(s[i])
  }

  function HexDigit(d: int): (c: char)
    requires 0 <= d < 16
    ensures IsUpperHexDigit(c)
  {
    if d < 10 then ('0' as int + d) as char else ('A' as int + d - 10) as char
  }

  function HexDigitValue(c: char): int
    requires IsUpperHexDigit(c)
  {
    if c <= '9' then c as int - '0' as int else c as int - 'A' as int + 10
  }

  /** sprintf("%X", n): n in upper-case hexadecimal, no leading zero. */
  function UpperHex(n: nat): (s: string)
    ensures |s| >= 1 && IsUpperHex(s)
    ensures (s[0] == '0') == (n == 0)
    decreases n
  {
    if n < 16 then [HexDigit(n)] else UpperHex(n / 16) + [HexDigit(n % 16)]
  }

  /** The number a string of upper-case hex digits denotes. */
  function HexValue(s: string): nat
    requires IsUpperHex(s)
  {
    if s == [] then 0
    else
      var d := HexDigitValue(s[|s| - 1]);
      assert 0 <= d < 16;
      HexValue(s[..|s| - 1]) * 16 + d
  }

  /** Reading the hex text back gives the number. */
  lemma {:induction false} UpperHexRoundTrip(n: nat)
    ensures HexValue(UpperHex(n)) == n
    decreases n
  {
    if n >= 16 {
      var s := UpperHex(n);
      assert s[..|s| - 1] == UpperHex(n / 16);
      UpperHexRoundTrip(n / 16);
    }
  }

  /** Numbers from 0x1000 to 0xFFFF print as exactly four hex digits. */
  lemma FourHexDigits(n: nat)
    requires 0x1000 <= n <= 0xFFFF
    ensures |UpperHex(n)| == 4
  {
    var a, b, c := n / 16, n / 16 / 16, n / 16 / 16 / 16;
    assert 1 <= c < 16 && 16 <= b < 256 && 256 <= a < 4096;
    assert |UpperHex(c)| == 1;
    assert |UpperHex(b)| == |UpperHex(c)| + 1;
    assert |UpperHex(a)| == |UpperHex(b)| + 1;
    assert |UpperHex(n)| == |UpperHex(a)| + 1;
  }

  // ------------------------------------------------------- implode / explode

  /** implode(sep, parts): the parts joined with one separator between each two. */
  function Implode(parts: seq<string>, sep: char): string
  {
    if |parts| == 0 then ""
    else if |parts| == 1 then parts[0]
    else parts[0] + [sep] + Implode(parts[1..], sep)
  }

  /** explode(sep, s): the pieces of s between the separators. */
  function Explode(s: string, sep: char): (parts: seq<string>)
    ensures |parts| >= 1
    decreases |s|
  {
    if s == [] then [""]
    else
      var rest := Explode(s[1..], sep);
      if s[0] == sep then [""] + rest else [[s[0]] + rest[0]] + rest[1..]
  }

  predicate Free(s: string, sep: char) {
    forall i | 0 <= i < |s| :: s[i] != sep
  }

  lemma {:induction false} ExplodeFree(a: string, sep: char, rest: string)
    requires Free(a, sep)
    ensures Explode(a + [sep] + rest, sep) == [a] + Explode(rest, sep)
    ensures Explode(a, sep) == [a]
    decreases |a|
  {
    if a == [] {
      var s := a + [sep] + rest;
      assert s[0] == sep && s[1..] == rest;
    } else {
      var s := a + [sep] + rest;
      assert s[0] == a[0] && s[1..] == a[1..] + [sep] + rest;
      assert Free(a[1..], sep) by {
        forall i | 0 <= i < |a| - 1 ensures a[1..][i] != sep { assert a[1..][i] == a[i + 1]; }
      }
      ExplodeFree(a[1..], sep, rest);
      assert [a[0]] + a[1..] == a;
    }
  }

  /**
   * implode keeps every slot: when no part contains the separator,
   * explode recovers exactly the parts, empty ones included.
   */
  lemma {:induction false} ExplodeImplode(parts: seq<string>, sep: char)
    requires |parts| >= 1
    requires forall i | 0 <= i < |parts| :: Free(parts[i], sep)
    ensures Explode(Implode(parts, sep), sep) == parts
  {
    if |parts| == 1 {
      ExplodeFree(parts[0], sep, "");
    } else {
      ExplodeImplode(parts[1..], sep);
      ExplodeFree(parts[0], sep, Implode(parts[1..], sep));
      assert [parts[0]] + parts[1..] == parts;
    }
  }

  /** So two separator-free lists of parts with the same join are the same list. */
  lemma ImplodeInjective(p: seq<string>, q: seq<string>, sep: char)
    requires |p| >= 1 && |q| >= 1
    requires forall i | 0 <= i < |p| :: Free(p[i], sep)
    requires forall i | 0 <= i < |q| :: Free(q[i], sep)
    requires Implode(p, sep) == Implode(q, sep)
    ensures p == q
  {
    ExplodeImplode(p, sep);
    ExplodeImplode(q, sep);
  }

  // ------------------------------------------------ strtoupper / strcasecmp

  predicate IsAsciiLower(c: char) {
    'a' <= c <= 'z'
  }

  function AsciiUpper(c: char): (u: char)
    ensures !IsAsciiLower(u)
  {
    if IsAsciiLower(c) then (c as int - 32) as char else c
  }

  function AsciiLower(c: char): char {
    if 'A' <= c <= 'Z' then (c as int + 32) as char else c
  }

  /** strtoupper(s): ASCII letters to upper case, every other byte kept. */
  function ToUpper(s: string): (r: string)
    ensures |r| == |s|
    ensures forall i | 0 <= i < |s| :: r[i] == AsciiUpper(s[i])
  {
    seq(|s|, i requires 0 <= i < |s| => AsciiUpper(s[i]))
  }

  function ToLower(s: string): (r: string)
    ensures |r| == |s|
    ensures forall i | 0 <= i < |s| :: r[i] == AsciiLower(s[i])
  {
    seq(|s|, i requires 0 <= i < |s| => AsciiLower(s[i]))
  }

  /** strcasecmp(a, b) == 0: equal once ASCII letters are lower-cased. */
  predicate CaseEquals(a: string, b: string) {
    ToLower(a) == ToLower(b)
  }

  predicate HasAsciiLower(s: string) {
    exists i | 0 <= i < |s| :: IsAsciiLower(s[i])
  }

  /** strtoupper never leaves a lower-case ASCII letter behind. */
  lemma UpperHasNoLower(s: string)
    ensures !HasAsciiLower(ToUpper(s))
  {
  }

  /** strcasecmp does not see the case that strtoupper changes. */
  lemma CaseEqualsUpper(s: string)
    ensures CaseEquals(ToUpper(s), s)
  {
    var u := ToUpper(s);
    forall i | 0 <= i < |s| ensures ToLower(u)[i] == ToLower(s)[i] {
      assert u[i] == AsciiUpper(s[i]);
    }
  }

  // ---------------------------------------------------- $value == 0 (PHP 8)

  predicate IsWhitespace(c: char) {
    c == ' ' || c == '\t' || c == '\n' || c == '\r' || c == '\U{0B}' || c == '\U{0C}'
  }

  function TrimStart(s: string): (r: string)
    ensures |r| <= |s|
    decreases |s|
  {
    if s != [] && IsWhitespace(s[0]) then TrimStart(s[1..]) else s
  }

  function TrimEnd(s: string): (r: string)
    ensures |r| <= |s|
    decreases |s|
  {
    if s != [] && IsWhitespace(s[|s| - 1]) then TrimEnd(s[..|s| - 1]) else s
  }

  /** Position of the first 'e' or 'E' in s, or |s| when there is none. */
  function ExponentStart(s: string): (k: nat)
    ensures k <= |s|
  {
    if s == [] then 0
    else if s[0] == 'e' || s[0] == 'E' then 0
    else 1 + ExponentStart(s[1..])
  }

  function CountOf(s: string, c: char): nat {
    if s == [] then 0 else (if s[0] == c then 1 else 0) + CountOf(s[1..], c)
  }

  /**
   * A mantissa of a PHP numeric string ("0", "00", "0.", ".0", "0.00", ...)
   * whose value is zero: zeros and at most one dot, with at least one zero.
   */
  predicate ZeroMantissa(m: string) {
    && (forall i | 0 <= i < |m| :: m[i] == '0' || m[i] == '.')
    && CountOf(m, '.') <= 1
    && CountOf(m, '0') >= 1
  }

  /** An exponent part after the 'e': an optional sign and at least one digit. */
  predicate ValidExponent(e: string) {
    var digits := if e != [] && (e[0] == '+' || e[0] == '-') then e[1..] else e;
    |digits| >= 1 && IsDigits(digits)
  }

  /**
   * s is a numeric string (surrounding whitespace, optional sign, mantissa,
   * optional exponent) whose value is zero.
   */
  predicate IsZeroNumeric(s: string) {
    var t := TrimEnd(TrimStart(s));
    var u := if t != [] && (t[0] == '+' || t[0] == '-') then t[1..] else t;
    var k := ExponentStart(u);
    ZeroMantissa(u[..k]) && (k == |u| || ValidExponent(u[k + 1..]))
  }

  /**
   * PHP 8's `$value == 0` for a value read from a request: null equals 0;
   * a numeric string is compared by value; any other string is compared
   * with "0" as text, which it cannot equal.
   */
  predicate LooseEqualsZero(v: Option<string>) {
    v.None? || IsZeroNumeric(v.value)
  }

  /** PHP's `$value == null` for a configuration value: null or "". */
  predicate LooseEqualsNull(v: Option<string>) {
    v.None? || v.value == ""
  }

  lemma ZeroTextIsZero()
    ensures IsZeroNumeric("0")
  {
    var s := "0";
    assert TrimStart(s) == s;
    assert TrimEnd(s) == s;
    assert ExponentStart(s) == 1 + ExponentStart("");
    assert s[..1] == s;
    assert CountOf(s, '.') == 0 + CountOf("", '.');
    assert CountOf(s, '0') == 1 + CountOf("", '0');
  }

  /**
   * A result code written as a decimal integer is `== 0` exactly when it is
   * the integer zero.
   */
  lemma DecimalLooseEqualsZero(n: nat)
    ensures LooseEqualsZero(Some(Decimal(n))) <==> n == 0
  {
    var d := Decimal(n);
    if n == 0 {
      assert d == "0";
      ZeroTextIsZero();
    } else {
      assert IsDigit(d[0]) && IsDigit(d[|d| - 1]) && d[0] != '0';
      assert TrimEnd(TrimStart(d)) == d;
      var k := ExponentStart(d);
      if k > 0 {
        assert d[..k][0] == d[0];
      } else {
        assert d[..k] == [];
      }
      assert !ZeroMantissa(d[..k]);
    }
  }

  /** Result codes the bank sends for an approved payment read as `== 0`. */
  lemma LooseEqualsZeroAccepts()
    ensures LooseEqualsZero(None)
    ensures LooseEqualsZero(Some("0")) && LooseEqualsZero(Some(" 0"))
  {
    ZeroTextIsZero();
    assert TrimEnd(TrimStart(" 0")) == "0" by {
      assert TrimStart(" 0") == TrimStart("0");
    }
  }

  /** A decimal point with a zero fraction still reads as zero. */
  lemma LooseEqualsZeroFraction()
    ensures LooseEqualsZero(Some("0.0"))
  {
    assert ExponentStart("0.0") == 3 by {
      assert ExponentStart("0.0") == 1 + ExponentStart(".0");
      assert ExponentStart(".0") == 1 + ExponentStart("0");
      assert ExponentStart("0") == 1 + ExponentStart("");
    }
    assert CountOf("0.0", '.') == 1 by {
      assert CountOf("0.0", '.') == CountOf(".0", '.');
      assert CountOf(".0", '.') == 1 + CountOf("0", '.');
    }
    assert "0.0"[..3] == "0.0";
  }

  /** Declined codes, the empty string and non-numeric text are not `== 0`. */
  lemma LooseEqualsZeroRejects()
    ensures !LooseEqualsZero(Some("1")) && !LooseEqualsZero(Some("2")) && !LooseEqualsZero(Some("3"))
    ensures !LooseEqualsZero(Some("")) && !LooseEqualsZero(Some("paid"))
  {
    assert "paid"[0] == 'p';
  }
}
