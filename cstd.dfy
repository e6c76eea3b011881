/**
 * The pieces of the C language and its library that the robot client
 * leans on, stated as Dafny functions: the NUL-terminated view of a
 * character buffer (what strcmp and strlen see), the conversion of a
 * double to an int (truncation toward zero), the conversion of an int to
 * a 16-bit short, and the "%d" conversions of sprintf and sscanf.
 */
module CStd {

  /** An unsigned char: the element type of the robot's raw buffers and of files. */
  type byte = bv8

  /**
   * The byte whose unsigned value is x, built up one increment at a time.
   * This stands for the C conversion (unsigned char)x; it is written with
   * bit-vector increments rather than `x as byte` because the solver
   * handles int-to-bv8 conversion of a variable poorly.
   */
  function ByteOf(x: int): (b: byte)
    requires 0 <= x < 256
    ensures b as int == x
  {
    if x == 0 then 0 else ByteOf(x - 1) + 1
  }

  /** Every byte is the byte of its own value. */
  lemma ByteOfValue(b: byte)
    ensures ByteOf(b as int) == b
  {
    var c := ByteOf(b as int);
    assert c as int == b as int;
  }

  /** The smaller of two integers. */
  function Min(a: int, b: int): int {
    if a <= b then a else b
  }

  datatype Option<T> = None | Some(value: T)

  const NUL: char := '\0'

  /** Concatenation regroups freely; stated once so that proofs about logs need not rediscover it. */
  lemma SeqAssoc<T>(a: seq<T>, b: seq<T>, c: seq<T>)
    ensures (a + b) + c == a + (b + c)
  {
  }

  /** The string a C routine sees in a buffer: everything before the first NUL. */
  function CStr(s: string): (r: string)
    ensures r <= s
    ensures NUL !in r
    ensures |r| < |s| ==> s[|r|] == NUL
  {
    if s == [] || s[0] == NUL then [] else [s[0]] + CStr(s[1..])
  }

  /** A string without NUL is its own C view (a literal such as "up", or sprintf output). */
  lemma {:induction false} CStrOfPlain(s: string)
    requires NUL !in s
    ensures CStr(s) == s
  {
    if s != [] {
      CStrOfPlain(s[1..]);
    }
  }

  /**
   * Conversion of a floating value to int: "the fractional part is
   * discarded (i.e., the value is truncated toward zero)", section
   * 6.3.1.4 of ISO/IEC 9899:2011.
   */
  function TruncToInt(x: real): (r: int)
    ensures x >= 0.0 ==> 0 <= r && r as real <= x < (r + 1) as real
    ensures x < 0.0 ==> r <= 0 && (r - 1) as real < x <= r as real
  {
    if x >= 0.0 then x.Floor else -((-x).Floor)
  }

  /**
   * Integer division as C performs it (section 6.5.5 of ISO/IEC 9899:2011):
   * the quotient is truncated toward zero, so the remainder a - q*b has the
   * sign of the dividend. Dafny's own `/` is Euclidean and differs for a < 0.
   */
  function TruncDiv(a: int, b: int): (q: int)
    requires b > 0
    ensures a >= 0 ==> 0 <= a - q * b < b
    ensures a < 0 ==> -b < a - q * b <= 0
  {
    if a >= 0 then a / b else -((-a) / b)
  }

  /** Multiplying by 0.5 and converting back to int is truncating division by two. */
  lemma HalfIsTruncDiv(n: int)
    ensures TruncToInt(n as real * 0.5) == TruncDiv(n, 2)
    ensures TruncDiv(-n, 2) == -TruncDiv(n, 2)
  {
  }

  const SHORT_MIN := -32768
  const SHORT_MAX := 32767

  /**
   * Storing an int into a short: the value is reduced modulo 2^16 into the
   * range of short, as the ARM compiler does (the standard leaves it
   * implementation-defined, section 6.3.1.3 of ISO/IEC 9899:2011).
   */
  function ToShort(v: int): (r: int)
    ensures SHORT_MIN <= r <= SHORT_MAX
    ensures (v - r) % 65536 == 0
    ensures SHORT_MIN <= v <= SHORT_MAX ==> r == v
  {
    var m := v % 65536;
    if m > SHORT_MAX then m - 65536 else m
  }

  // ---------------------------------------------------------------------
  // Decimal digits, shared by the "%d" formatter and scanner.

  predicate IsDigit(c: char) {
    '0' <= c <= '9'
  }

  predicate AllDigits(s: string) {
    forall i :: 0 <= i < |s| ==> IsDigit(s[i])
  }

  function DigitChar(d: int): (c: char)
    requires 0 <= d < 10
    ensures IsDigit(c)
  {
    (d + '0' as int) as char
  }

  function DigitValue(c: char): (d: int)
    requires IsDigit(c)
    ensures 0 <= d < 10
    ensures DigitChar(d) == c
  {
    c as int - '0' as int
  }

  /** The number a run of decimal digits denotes, most significant first. */
  function DigitsValue(s: string): nat
    requires AllDigits(s)
  {
    if s == [] then 0 else DigitsValue(s[..|s| - 1]) * 10 + DigitValue(s[|s| - 1])
  }

  /** The length of the run of decimal digits that starts s. */
  function DigitRun(s: string): (k: nat)
    ensures k <= |s|
    ensures AllDigits(s[..k])
    ensures k < |s| ==> !IsDigit(s[k])
  {
    if s == [] || !IsDigit(s[0]) then 0 else 1 + DigitRun(s[1..])
  }

  lemma {:induction false} DigitRunAppend(ds: string, rest: string)
    requires AllDigits(ds)
    requires rest == [] || !IsDigit(rest[0])
    ensures DigitRun(ds + rest) == |ds|
  {
    if ds != [] {
      assert (ds + rest)[1..] == ds[1..] + rest;
      DigitRunAppend(ds[1..], rest);
    }
  }

  /** The digits of a natural number, without leading zeros. */
  function NatDigits(n: nat): (s: string)
    ensures |s| >= 1
    ensures AllDigits(s)
    ensures s[0] == '0' ==> n == 0
  {
    if n < 10 then [DigitChar(n)] else NatDigits(n / 10) + [DigitChar(n % 10)]
  }

  lemma {:induction false} NatDigitsValue(n: nat)
    ensures DigitsValue(NatDigits(n)) == n
  {
    var s := NatDigits(n);
    if n >= 10 {
      NatDigitsValue(n / 10);
      assert s[..|s| - 1] == NatDigits(n / 10);
    }
  }

  /** sprintf(buf, "%d", n) (section 7.21.6.1 of ISO/IEC 9899:2011): an optional minus sign, then the digits. */
  function FormatDecimal(n: int): (s: string)
    ensures |s| >= 1
    ensures NUL !in s
    ensures n >= 0 ==> s == NatDigits(n)
    ensures n < 0 ==> s == "-" + NatDigits(-n)
  {
    if n < 0 then "-" + NatDigits(-n) else NatDigits(n)
  }

  // ---------------------------------------------------------------------
  // sscanf(s, "%d", &v), section 7.21.6.2 of ISO/IEC 9899:2011.

  /** The white-space characters of isspace in the "C" locale. */
  predicate IsSpace(c: char) {
    c == ' ' || c == '\t' || c == '\n' || c == '\U{0B}' || c == '\U{0C}' || c == '\r'
  }

  function SkipSpace(s: string): (r: string)
    ensures |r| <= |s| && r == s[|s| - |r|..]
    ensures r != [] ==> !IsSpace(r[0])
  {
    if s != [] && IsSpace(s[0]) then SkipSpace(s[1..]) else s
  }

  /**
   * The value of the optionally signed decimal integer that leads s once
   * white space is skipped, or None on a matching or input failure (no digit
   * after the optional sign, or nothing left). A NUL ends the C string and
   * is neither white space nor a digit, so it stops the scan by itself.
   */
  function ScanDecimal(s: string): (r: Option<int>)
    ensures SkipSpace(s) == [] ==> r.None?
    ensures SkipSpace(s) != [] && IsDigit(SkipSpace(s)[0]) ==> r.Some?
    ensures SkipSpace(s) != [] && !IsDigit(SkipSpace(s)[0]) && SkipSpace(s)[0] != '-' && SkipSpace(s)[0] != '+' ==> r.None?
  {
    ScanSigned(SkipSpace(s))
  }

  /** The conversion proper, once white space is skipped: an optional sign, then at least one digit. */
  function ScanSigned(t: string): Option<int> {
    var signed := t != [] && (t[0] == '-' || t[0] == '+');
    var u := if signed then t[1..] else t;
    var k := DigitRun(u);
    if k == 0 then None
    else if signed && t[0] == '-' then Some(-(DigitsValue(u[..k]) as int))
    else Some(DigitsValue(u[..k]))
  }

  /** What sscanf(s, "%d", &v) leaves in v: the scanned value, or v untouched on failure. */
  function ScanInt(s: string, current: int): (v: int)
    ensures ScanDecimal(s).None? ==> v == current
    ensures ScanDecimal(s).Some? ==> v == ScanDecimal(s).value
  {
    match ScanDecimal(s)
    case None => current
    case Some(x) => x
  }

  /** The "%d" scanner reads back what the "%d" formatter wrote, whatever non-digit text follows. */
  lemma ScanFormatRoundTrip(n: int, rest: string)
    requires rest == [] || !IsDigit(rest[0])
    ensures ScanDecimal(FormatDecimal(n) + rest) == Some(n)
  {
    var m: nat := if n < 0 then -n else n;
    FormatSplit(n, rest);
    ScanNatDigits(m, rest);
  }

  lemma FormatSplit(n: int, rest: string)
    ensures n < 0 ==> FormatDecimal(n) + rest == "-" + (NatDigits(-n) + rest)
    ensures n >= 0 ==> FormatDecimal(n) + rest == NatDigits(n) + rest
  {
  }

  lemma {:induction false} ScanNatDigits(m: nat, rest: string)
    requires rest == [] || !IsDigit(rest[0])
    ensures ScanDecimal(NatDigits(m) + rest) == Some(m as int)
    ensures ScanDecimal("-" + (NatDigits(m) + rest)) == Some(-(m as int))
  {
    var ds := NatDigits(m);
    NatDigitsValue(m);
    var v: int := DigitsValue(ds);
    assert v == m;
    ScanDigits(ds, rest);
  }

  /** A run of digits, with or without a minus sign, scans to its value. */
  lemma {:induction false} ScanDigits(ds: string, rest: string)
    requires ds != [] && AllDigits(ds)
    requires rest == [] || !IsDigit(rest[0])
    ensures ScanDecimal(ds + rest) == Some(DigitsValue(ds) as int)
    ensures ScanDecimal("-" + (ds + rest)) == Some(-(DigitsValue(ds) as int))
  {
    var u := ds + rest;
    DigitRunAppend(ds, rest);
    assert u[..|ds|] == ds;
    assert u[0] == ds[0];
    NoSpaceToSkip(u);
    ScanUnsigned(u, ds);
    var v := "-" + u;
    assert v[0] == '-';
    NoSpaceToSkip(v);
    assert v[1..] == u;
    ScanNegative(v, ds);
  }

  lemma NoSpaceToSkip(u: string)
    requires u != [] && !IsSpace(u[0])
    ensures SkipSpace(u) == u
  {
  }

  lemma ScanUnsigned(u: string, ds: string)
    requires ds != [] && AllDigits(ds)
    requires SkipSpace(u) == u && DigitRun(u) == |ds| && u[..|ds|] == ds
    ensures ScanDecimal(u) == Some(DigitsValue(ds) as int)
  {
  }

  lemma ScanNegative(v: string, ds: string)
    requires ds != [] && AllDigits(ds)
    requires SkipSpace(v) == v && v != [] && v[0] == '-'
    requires DigitRun(v[1..]) == |ds| && v[1..][..|ds|] == ds
    ensures ScanDecimal(v) == Some(-(DigitsValue(ds) as int))
  {
  }

  /** Leading white space does not change what "%d" scans. */
  lemma {:induction false} ScanSkipsSpace(ws: string, s: string)
    requires forall i :: 0 <= i < |ws| ==> IsSpace(ws[i])
    ensures ScanDecimal(ws + s) == ScanDecimal(s)
  {
    assert SkipSpace(ws + s) == SkipSpace(s) by {
      SkipSpaceAppend(ws, s);
    }
  }

  lemma {:induction false} SkipSpaceAppend(ws: string, s: string)
    requires forall i :: 0 <= i < |ws| ==> IsSpace(ws[i])
    ensures SkipSpace(ws + s) == SkipSpace(s)
  {
    if ws == [] {
      assert ws + s == s;
    } else {
      assert (ws + s)[0] == ws[0];
      assert IsSpace((ws + s)[0]);
      assert (ws + s)[1..] == ws[1..] + s;
      assert forall i :: 0 <= i < |ws[1..]| ==> IsSpace(ws[1..][i]) by {
        forall i | 0 <= i < |ws[1..]| ensures IsSpace(ws[1..][i]) {
          assert ws[1..][i] == ws[i + 1];
        }
      }
      SkipSpaceAppend(ws[1..], s);
    }
  }

  /** A string with no decimal digit in it never yields a value, so "%d" leaves the variable as it was. */
  lemma NoDigitNoScan(s: string, current: int)
    requires forall i :: 0 <= i < |s| ==> !IsDigit(s[i])
    ensures ScanDecimal(s) == None
    ensures ScanInt(s, current) == current
  {
    var t := SkipSpace(s);
    assert forall i :: 0 <= i < |t| ==> t[i] == s[|s| - |t| + i];
    var u := if t != [] && (t[0] == '-' || t[0] == '+') then t[1..] else t;
    assert u != [] ==> !IsDigit(u[0]);
  }
}
