/**
 * The parts of the C runtime whose meaning the binding depends on, for an
 * LP64 Linux target (32-bit `int`, 64-bit `unsigned long`): the integer
 * conversions applied when a Lua integer is stored in a C variable, the
 * string a `const char *` denotes, and `strtoul` with base 10 as section
 * 7.22.1.4 of ISO C11 defines it.
 */
module CRuntime {

  const UINT_MODULUS: int := 0x1_0000_0000
  const INT_MIN: int := -0x8000_0000
  const INT_MAX: int := 0x7FFF_FFFF
  const ULONG_MAX: int := 0xFFFF_FFFF_FFFF_FFFF

  // ---------------------------------------------------------------------------
  // Integer conversions
  // ---------------------------------------------------------------------------

  /** Conversion to `unsigned int`: the value is reduced modulo 2^32
      (section 6.3.1.3 of ISO C11). */
  function ToUInt(x: int): (r: nat)
    ensures r < UINT_MODULUS
    ensures (x - r) % UINT_MODULUS == 0
    ensures 0 <= x < UINT_MODULUS ==> r == x
  {
    x % UINT_MODULUS
  }

  /** Conversion to `int`, which GCC defines as wrap-around modulo 2^32 for
      values out of range. */
  function ToInt(x: int): (r: int)
    ensures INT_MIN <= r <= INT_MAX
    ensures (x - r) % UINT_MODULUS == 0
    ensures INT_MIN <= x <= INT_MAX ==> r == x
  {
    var u := ToUInt(x);
    if u <= INT_MAX then u else u - UINT_MODULUS
  }

  /** Element-wise conversion of Lua integers to a C `int` array. */
  function ToInts(xs: seq<int>): (r: seq<int>)
    ensures |r| == |xs|
    ensures forall i :: 0 <= i < |xs| ==> r[i] == ToInt(xs[i])
  {
    seq(|xs|, i requires 0 <= i < |xs| => ToInt(xs[i]))
  }

  /** Element-wise conversion of Lua integers to an `unsigned int` array. */
  function ToUInts(xs: seq<int>): (r: seq<nat>)
    ensures |r| == |xs|
    ensures forall i :: 0 <= i < |xs| ==> r[i] == ToUInt(xs[i])
  {
    seq(|xs|, i requires 0 <= i < |xs| => ToUInt(xs[i]))
  }

  // ---------------------------------------------------------------------------
  // C strings
  // ---------------------------------------------------------------------------

  /** The string that a `const char *` to the bytes of `s` denotes: a Lua
      string may hold NUL characters, and C stops at the first one. */
  function CString(s: string): (r: string)
    ensures r <= s
    ensures '\0' !in r
    ensures |r| < |s| ==> s[|r|] == '\0'
  {
    if s == [] || s[0] == '\0' then [] else [s[0]] + CString(s[1..])
  }

  /** A string without NUL is passed to C whole; this follows from the
      contract of `CString`, since C would stop only at a NUL. */
  lemma CStringWhole(s: string)
    requires '\0' !in s
    ensures CString(s) == s
  {
  }

  // ---------------------------------------------------------------------------
  // strtoul(nptr, &endptr, 10)
  // ---------------------------------------------------------------------------

  /** `isspace` in the "C" locale: space, tab, newline, vertical tab, form
      feed and carriage return. */
  predicate IsSpace(c: char) {
    c == ' ' || c == '\t' || c == '\n' || c == '\U{0B}' || c == '\U{0C}' || c == '\r'
  }

  /** The characters `isspace` accepts are exactly codes 9 to 13 and 32. */
  lemma IsSpaceCodes(c: char)
    ensures IsSpace(c) <==> c as int == 32 || 9 <= c as int <= 13
  {
  }

  predicate IsSign(c: char) {
    c == '+' || c == '-'
  }

  predicate IsDigit(c: char) {
    '0' as int <= c as int <= '9' as int
  }

  /** The length of the longest prefix of `s` whose characters satisfy `p`. */
  function Span(s: string, p: char -> bool): (n: nat)
    ensures n <= |s|
    ensures forall i :: 0 <= i < n ==> p(s[i])
    ensures n < |s| ==> !p(s[n])
  {
    if s == [] || !p(s[0]) then 0 else 1 + Span(s[1..], p)
  }

  /** 10 to the power `k`. */
  function Pow10(k: nat): (r: nat)
    ensures r >= 1
  {
    if k == 0 then 1 else 10 * Pow10(k - 1)
  }

  /** The value of a string of decimal digits, unbounded. */
  function DigitsValue(d: string): nat
    requires forall i :: 0 <= i < |d| ==> IsDigit(d[i])
  {
    if d == [] then 0
    else
      assert IsDigit(d[|d| - 1]);
      10 * DigitsValue(d[..|d| - 1]) + (d[|d| - 1] as int - '0' as int)
  }

  /** `k` digits denote a number below 10^k. */
  lemma {:induction false} DigitsValueBound(d: string)
    requires forall i :: 0 <= i < |d| ==> IsDigit(d[i])
    ensures DigitsValue(d) < Pow10(|d|)
  {
    if d != [] {
      DigitsValueBound(d[..|d| - 1]);
    }
  }

  /** What `strtoul` returns and where it leaves `*endptr`, as an index into
      the string. */
  datatype Conversion = Conversion(value: nat, end: nat)

  /** `strtoul(s, &end, 10)`: white space is skipped, then an optional sign,
      then the longest run of digits is the subject sequence. Without digits
      nothing is converted: the value is 0 and `end` is the start of `s`. A
      magnitude above ULONG_MAX gives ULONG_MAX; otherwise a minus sign
      negates the value in `unsigned long`. */
  function Strtoul(s: string): (r: Conversion)
    ensures r.end <= |s|
    ensures r.value <= ULONG_MAX
    ensures r.end == 0 ==> r.value == 0
    ensures r.end > 0 ==> IsDigit(s[r.end - 1])
  {
    var ws := Span(s, IsSpace);
    var signed := ws < |s| && IsSign(s[ws]);
    var start := if signed then ws + 1 else ws;
    var digits := Span(s[start..], IsDigit);
    if digits == 0 then Conversion(0, 0)
    else
      assert IsDigit(s[start..][digits - 1]);
      var magnitude := DigitsValue(s[start..][..digits]);
      var value :=
        if magnitude > ULONG_MAX then ULONG_MAX
        else if signed && s[ws] == '-' then (ULONG_MAX + 1 - magnitude) % (ULONG_MAX + 1)
        else magnitude;
      Conversion(value, start + digits)
  }

  /** The conversion stops at the first character after the digits that is
      not a digit: the run of digits it reads is maximal. */
  lemma StrtoulDigitsMaximal(s: string)
    ensures 0 < Strtoul(s).end < |s| ==> !IsDigit(s[Strtoul(s).end])
  {
    var ws := Span(s, IsSpace);
    var signed := ws < |s| && IsSign(s[ws]);
    var start := if signed then ws + 1 else ws;
    var digits := Span(s[start..], IsDigit);
    assert start + digits < |s| ==> s[start + digits] == s[start..][digits];
  }

  /** `s` splits, at `k` and `j`, into white space, an optional sign and a
      non-empty run of digits that reaches the end of `s`. */
  ghost predicate NumeralSplit(s: string, k: int, j: int) {
    && 0 <= k <= j < |s| && j <= k + 1
    && (forall i :: 0 <= i < k ==> IsSpace(s[i]))
    && (j == k + 1 ==> IsSign(s[k]))
    && (forall i :: j <= i < |s| ==> IsDigit(s[i]))
  }

  /** `s` is white space, an optional sign and at least one digit, and
      nothing else. */
  ghost predicate IsNumeral(s: string) {
    exists k, j :: NumeralSplit(s, k, j)
  }

  /** A prefix of length `k` satisfying `p`, stopped by a character that
      does not, is the span. */
  lemma {:induction false} SpanIs(s: string, p: char -> bool, k: nat)
    requires k <= |s|
    requires forall i :: 0 <= i < k ==> p(s[i])
    requires k < |s| ==> !p(s[k])
    ensures Span(s, p) == k
  {
  }

  /** A non-empty string that `strtoul` consumes entirely is a numeral. */
  lemma {:induction false} ConsumedIsNumeral(s: string)
    requires s != [] && Strtoul(s).end == |s|
    ensures IsNumeral(s)
  {
    var ws := Span(s, IsSpace);
    var signed := ws < |s| && IsSign(s[ws]);
    var start := if signed then ws + 1 else ws;
    var digits := Span(s[start..], IsDigit);
    assert start <= |s| && digits > 0 && start + digits == |s|;
    forall i | start <= i < |s| ensures IsDigit(s[i]) {
      assert s[i] == s[start..][i - start];
    }
    assert NumeralSplit(s, ws, start);
  }

  /** `strtoul` consumes a numeral entirely. */
  lemma {:induction false} NumeralIsConsumed(s: string)
    requires IsNumeral(s)
    ensures Strtoul(s).end == |s|
  {
    var k, j :| NumeralSplit(s, k, j);
    assert !IsSpace(s[k]) by {
      if j == k + 1 { assert IsSign(s[k]); } else { assert IsDigit(s[j]); }
    }
    SpanIs(s, IsSpace, k);
    var signed := k < |s| && IsSign(s[k]);
    assert signed <==> j == k + 1 by {
      if j == k { assert IsDigit(s[k]); }
    }
    forall i | 0 <= i < |s| - j ensures IsDigit(s[j..][i]) {
      assert s[j..][i] == s[j + i];
    }
    SpanIs(s[j..], IsDigit, |s| - j);
  }

  /** The value of a numeral: its digits, negated modulo 2^64 after a '-',
      and `ULONG_MAX` when they do not fit. */
  lemma {:induction false} NumeralValue(s: string, k: int, j: int)
    requires NumeralSplit(s, k, j)
    ensures Strtoul(s) == Conversion(
      if DigitsValue(s[j..]) > ULONG_MAX then ULONG_MAX
      else if j == k + 1 && s[k] == '-' then (ULONG_MAX + 1 - DigitsValue(s[j..])) % (ULONG_MAX + 1)
      else DigitsValue(s[j..]), |s|)
  {
    NumeralIsConsumed(s);
    assert !IsSpace(s[k]) by {
      if j == k + 1 { assert IsSign(s[k]); } else { assert IsDigit(s[j]); }
    }
    SpanIs(s, IsSpace, k);
    assert (k < |s| && IsSign(s[k])) <==> j == k + 1 by {
      if j == k { assert IsDigit(s[k]); }
    }
    assert s[j..][..|s| - j] == s[j..];
  }

  /** `strtoul` leaves `*endptr` on the terminating NUL exactly when the
      string is empty (nothing converts, so `endptr == nptr`) or is a
      numeral. */
  lemma ConsumesAllIff(s: string)
    ensures Strtoul(s).end == |s| <==> s == [] || IsNumeral(s)
  {
    if s != [] && Strtoul(s).end == |s| {
      ConsumedIsNumeral(s);
    }
    if IsNumeral(s) {
      NumeralIsConsumed(s);
    }
  }

  /** A string of digits, with no white space or sign before it, converts
      completely to its decimal value, saturated at ULONG_MAX. */
  lemma DigitsConvertWhole(d: string)
    requires |d| > 0
    requires forall i :: 0 <= i < |d| ==> IsDigit(d[i])
    ensures Strtoul(d).end == |d|
    ensures Strtoul(d).value == if DigitsValue(d) > ULONG_MAX then ULONG_MAX else DigitsValue(d)
  {
    SpanIs(d, IsSpace, 0);
    assert d[0..] == d;
    SpanIs(d, IsDigit, |d|);
    assert d[0..][..|d|] == d;
  }

  /** The decimal digit character for `n < 10`. */
  function DigitChar(n: nat): (c: char)
    requires n < 10
    ensures IsDigit(c) && c as int - '0' as int == n
  {
    ('0' as int + n) as char
  }

  /** The decimal numeral of `n`, without leading zeros. */
  function Decimal(n: nat): (s: string)
    ensures |s| > 0
    ensures forall i :: 0 <= i < |s| ==> IsDigit(s[i])
    ensures |s| > 1 ==> s[0] != '0'
    decreases n
  {
    if n < 10 then [DigitChar(n)] else Decimal(n / 10) + [DigitChar(n % 10)]
  }

  /** `DigitsValue` reads back what `Decimal` prints. */
  lemma {:induction false} DigitsValueDecimal(n: nat)
    ensures DigitsValue(Decimal(n)) == n
    decreases n
  {
    var s := Decimal(n);
    assert s[..|s| - 1] == if n < 10 then [] else Decimal(n / 10);
    if n >= 10 {
      DigitsValueDecimal(n / 10);
    }
  }

  /** The decimal numeral of any `n` converts completely, to `n` when it
      fits in an `unsigned long` and to ULONG_MAX otherwise. */
  lemma StrtoulDecimal(n: nat)
    ensures Strtoul(Decimal(n)) == Conversion(if n > ULONG_MAX then ULONG_MAX else n, |Decimal(n)|)
  {
    DigitsConvertWhole(Decimal(n));
    DigitsValueDecimal(n);
  }

  /** A string whose first character is neither white space, a sign nor a
      digit converts nothing: the value is 0 and `*endptr` is `nptr`. */
  lemma NothingConverts(s: string)
    requires |s| > 0 && !IsSpace(s[0]) && !IsSign(s[0]) && !IsDigit(s[0])
    ensures Strtoul(s) == Conversion(0, 0)
  {
    SpanIs(s, IsSpace, 0);
    assert s[0..] == s;
    SpanIs(s, IsDigit, 0);
  }

  /** A plain numeral converts completely. */
  lemma StrtoulNumeral()
    ensures Strtoul("4") == Conversion(4, 1)
  {
    DigitsConvertWhole("4");
    assert DigitsValue("4") == 4 by { assert "4"[..0] == ""; }
  }

  /** A device name converts nothing, so `*endptr` is its first character. */
  lemma StrtoulDeviceName()
    ensures Strtoul("gpiochip4").end == 0
  {
    NothingConverts("gpiochip4");
  }

  /** Trailing garbage stops the conversion before the end. */
  lemma StrtoulTrailingGarbage()
    ensures Strtoul("4a").end == 1
    ensures Strtoul("4 ").end == 1
  {
    SpanIs("4a", IsSpace, 0);
    SpanIs("4a", IsDigit, 1);
    SpanIs("4 ", IsSpace, 0);
    SpanIs("4 ", IsDigit, 1);
  }

  /** Leading white space and a plus sign belong to the subject sequence. */
  lemma StrtoulSpaceAndSign()
    ensures Strtoul(" +17") == Conversion(17, 4)
  {
    SpanIs(" +17", IsSpace, 1);
    assert " +17"[2..] == "17";
    SpanIs("17", IsDigit, 2);
    assert "17"[..2] == "17";
    assert DigitsValue("17") == 17 by {
      assert "17"[..1] == "1";
      assert "1"[..0] == "";
    }
  }

  /** The empty string converts nothing and yields 0 with `endptr == nptr`. */
  lemma StrtoulEmpty()
    ensures Strtoul("") == Conversion(0, 0)
  {
  }

  /** A minus sign negates in `unsigned long`. */
  lemma StrtoulNegative()
    ensures Strtoul("-4") == Conversion(ULONG_MAX - 3, 2)
  {
    SpanIs("-4", IsSpace, 0);
    assert "-4"[1..] == "4";
    SpanIs("4", IsDigit, 1);
    assert "4"[..1] == "4";
    assert DigitsValue("4") == 4 by { assert "4"[..0] == ""; }
  }
}
