/**
 * `gpiod.chip_open` and `gpiod.chip` handles. A chip handle holds the
 * library's chip, NULL once closed; every method but `close` refuses to run
 * on a closed handle, before any library call.
 */
module Chips {
  import opened Wrappers
  import opened CRuntime
  import opened Libgpiod
  import opened Errors
  import opened LuaTables
  import opened Lines
  import opened LineBulks

  // ---------------------------------------------------------------------------
  // Open resolution
  // ---------------------------------------------------------------------------

  /** Whether `chip_open` retries by number after the name failed:
      `strtoul` left `*endptr` on the string's terminating NUL.
      `FallbackOnlyForNumerals` says which names these are. */
  predicate FallbackAllowed(name: string) {
    Strtoul(CString(name)).end == |CString(name)|
  }

  /** The numeric retry is made exactly for names that are empty or are a
      numeral: white space, an optional sign and digits, up to the end. */
  lemma FallbackOnlyForNumerals(name: string)
    ensures FallbackAllowed(name) <==> CString(name) == [] || IsNumeral(CString(name))
  {
    ConsumesAllIff(CString(name));
  }

  /** The number `chip_open` retries with: the conversion, stored in an
      `unsigned int`. */
  function FallbackNumber(name: string): (n: nat)
    ensures n < UINT_MODULUS
  {
    ToUInt(Strtoul(CString(name)).value)
  }

  /** The library calls `chip_open` makes and the chip it ends up with. */
  datatype Resolution = Resolution(calls: seq<Call>, chip: Option<ChipRef>)

  /** Open-by-name first; open-by-number only when that failed and the
      whole name converted. `byName` and `byNumber` are what the library's
      two open functions return if they are called. */
  function ResolveOpen(name: string, byName: Option<ChipRef>, byNumber: Option<ChipRef>): (res: Resolution)
    ensures res.chip.Some? <==> byName.Some? || (FallbackAllowed(name) && byNumber.Some?)
    ensures |res.calls| >= 1 && res.calls[0] == ChipOpenByName(CString(name))
    ensures byName.Some? ==> res.calls == [ChipOpenByName(CString(name))] && res.chip == byName
    ensures |res.calls| == 2 <==> byName.None? && FallbackAllowed(name)
    ensures |res.calls| == 2 ==> res.calls[1] == ChipOpenByNumber(FallbackNumber(name)) && res.chip == byNumber
    ensures |res.calls| <= 2
  {
    var c := CString(name);
    if byName.Some? then Resolution([ChipOpenByName(c)], byName)
    else if FallbackAllowed(name) then
      Resolution([ChipOpenByName(c), ChipOpenByNumber(FallbackNumber(name))], byNumber)
    else Resolution([ChipOpenByName(c)], None)
  }

  /** "4" falls back to chip number 4. */
  lemma FallbackNumeral()
    ensures FallbackAllowed("4") && FallbackNumber("4") == 4
  {
    CStringWhole("4");
    StrtoulNumeral();
  }

  /** A name that starts with a character other than white space, a sign
      or a digit, as device names such as "gpiochip4" do, never falls back. */
  lemma NoFallbackForNames(name: string)
    requires '\0' !in name
    requires |name| > 0 && !IsSpace(name[0]) && !IsSign(name[0]) && !IsDigit(name[0])
    ensures !FallbackAllowed(name)
  {
    CStringWhole(name);
    NothingConverts(name);
  }

  /** A name whose last character is not a digit, such as "4a" or "4 ",
      never falls back. */
  lemma NoFallbackForTrailingGarbage(name: string)
    requires '\0' !in name
    requires |name| > 0 && !IsDigit(name[|name| - 1])
    ensures !FallbackAllowed(name)
  {
    CStringWhole(name);
  }

  /** The empty name falls back to chip number 0. */
  lemma FallbackEmpty()
    ensures FallbackAllowed("") && FallbackNumber("") == 0
  {
    StrtoulEmpty();
  }

  /** A name made of digits only is retried with its decimal value,
      saturated at ULONG_MAX and then reduced modulo 2^32. */
  lemma FallbackDigits(d: string)
    requires |d| > 0
    requires forall i :: 0 <= i < |d| ==> IsDigit(d[i])
    ensures FallbackAllowed(d)
    ensures FallbackNumber(d) == ToUInt(if DigitsValue(d) > ULONG_MAX then ULONG_MAX else DigitsValue(d))
  {
    assert forall i :: 0 <= i < |d| ==> d[i] != '\0';
    CStringWhole(d);
    DigitsConvertWhole(d);
  }

  /** A NUL-free numeral, with white space and a sign allowed in front, is
      retried with `ToUInt` of the value `strtoul` gives it. */
  lemma FallbackNumeralValue(name: string, k: int, j: int)
    requires '\0' !in name
    requires NumeralSplit(name, k, j)
    ensures FallbackAllowed(name)
    ensures FallbackNumber(name) == ToUInt(
      if DigitsValue(name[j..]) > ULONG_MAX then ULONG_MAX
      else if j == k + 1 && name[k] == '-' then (ULONG_MAX + 1 - DigitsValue(name[j..])) % (ULONG_MAX + 1)
      else DigitsValue(name[j..]))
  {
    CStringWhole(name);
    NumeralValue(name, k, j);
  }

  /** "-1" is retried as chip 4294967295: `strtoul` negates in 64 bits and
      the store keeps the low 32. */
  lemma FallbackMinusOne()
    ensures FallbackAllowed("-1") && FallbackNumber("-1") == 0xFFFF_FFFF
  {
    assert NumeralSplit("-1", 0, 1);
    assert DigitsValue("-1"[1..]) == 1 by { assert "-1"[1..] == "1"; }
    FallbackNumeralValue("-1", 0, 1);
  }

  /** The decimal numeral of chip number `n` is retried as `n` itself when
      `n` fits in an `unsigned int`, and as `n` modulo 2^32 below 2^64. */
  lemma FallbackDecimal(n: nat)
    ensures FallbackAllowed(Decimal(n))
    ensures n <= ULONG_MAX ==> FallbackNumber(Decimal(n)) == ToUInt(n)
    ensures n < UINT_MODULUS ==> FallbackNumber(Decimal(n)) == n
  {
    FallbackDigits(Decimal(n));
    DigitsValueDecimal(n);
  }

  /** "4294967296" (2^32) is retried as chip number 0: the conversion is
      truncated to `unsigned int`. */
  lemma FallbackTruncates()
    ensures FallbackAllowed("4294967296") && FallbackNumber("4294967296") == 0
  {
    assert Decimal(4) == "4";
    assert Decimal(42) == "42";
    assert Decimal(429) == "429";
    assert Decimal(4294) == "4294";
    assert Decimal(42949) == "42949";
    assert Decimal(429496) == "429496";
    assert Decimal(4294967) == "4294967";
    assert Decimal(42949672) == "42949672";
    assert Decimal(429496729) == "429496729";
    assert Decimal(4294967296) == "4294967296";
    FallbackDecimal(4294967296);
  }

  /** When the library knows the name, only open-by-name is made. */
  lemma NameResolution(name: string, byName: Option<ChipRef>, byNumber: Option<ChipRef>)
    requires byName.Some?
    ensures ResolveOpen(name, byName, byNumber) == Resolution([ChipOpenByName(CString(name))], byName)
  {
  }

  /** When the name is unknown and the retry is allowed, both opens are
      made and the result is the by-number one. */
  lemma RetryResolution(name: string, byNumber: Option<ChipRef>)
    requires FallbackAllowed(name)
    ensures ResolveOpen(name, None, byNumber)
      == Resolution([ChipOpenByName(CString(name)), ChipOpenByNumber(FallbackNumber(name))], byNumber)
  {
  }

  /** When the name is unknown and no retry is allowed, the open fails after
      one call. */
  lemma NoRetryResolution(name: string, byNumber: Option<ChipRef>)
    requires !FallbackAllowed(name)
    ensures ResolveOpen(name, None, byNumber) == Resolution([ChipOpenByName(CString(name))], None)
  {
  }

  /** Scenario: the library does not know the name "4", so the chip opens
      as number 4. */
  lemma OpenByNumberScenario(c: ChipRef)
    ensures ResolveOpen("4", None, Some(c))
      == Resolution([ChipOpenByName("4"), ChipOpenByNumber(4)], Some(c))
  {
    FallbackNumeral();
    CStringWhole("4");
    RetryResolution("4", Some(c));
  }

  /** Scenario: the library does not know "gpiochip4", and no numeric retry
      is made, so the open fails. */
  lemma UnknownNameScenario(other: Option<ChipRef>)
    ensures ResolveOpen("gpiochip4", None, other)
      == Resolution([ChipOpenByName("gpiochip4")], None)
  {
    NoFallbackForNames("gpiochip4");
    CStringWhole("gpiochip4");
    NoRetryResolution("gpiochip4", other);
  }

  // ---------------------------------------------------------------------------
  // The handle
  // ---------------------------------------------------------------------------

  class Chip {
    var chip: Option<ChipRef>

    constructor (c: Option<ChipRef>)
      ensures chip == c
    {
      chip := c;
    }

    /** `chip:get_line(offset)`: `found` is what gpiod_chip_get_line returns. */
    method GetLine(lib: Library, offset: int, found: Option<LineRef>) returns (r: Result<Line, Error>)
      modifies lib
      ensures chip.None? ==> r == Failure(ChipClosed) && lib.trace == old(lib.trace)
      ensures chip.Some? ==> lib.trace == old(lib.trace) + [ChipGetLine(chip.value, ToUInt(offset))]
      ensures chip.Some? ==> (r.Success? <==> found.Some?)
      ensures chip.Some? && r.Failure? ==> r.error == GetLineFailed(ToUInt(offset))
      ensures r.Success? ==> fresh(r.value) && r.value.line == found && r.value.chip == chip
    {
      if chip.None? { return Failure(ChipClosed); }
      var o := ToUInt(offset);
      lib.Record(ChipGetLine(chip.value, o));
      var line := new Line(found, chip);
      if line.line.None? { return Failure(GetLineFailed(o)); }
      return Success(line);
    }

    /** `chip:get_lines(offsets)`: `len` is the length Lua reports for the
        table; its entries at keys 1..len are read as `unsigned int`
        offsets before the library is called. `ret` and `filled` are the
        library's status and the lines it put in the bulk. */
    method GetLines(lib: Library, offsets: map<int, int>, len: nat, ret: int, filled: seq<LineRef>)
      returns (r: Result<LineBulk, Error>)
      modifies lib
      ensures chip.None? ==> r == Failure(ChipClosed) && lib.trace == old(lib.trace)
      ensures chip.Some? && Gather(offsets, len).Failure? ==>
        r == Failure(Gather(offsets, len).error) && lib.trace == old(lib.trace)
      ensures chip.Some? && Gather(offsets, len).Success? ==>
        lib.trace == old(lib.trace) + [ChipGetLines(chip.value, ToUInts(Gather(offsets, len).value))]
      ensures chip.Some? && Gather(offsets, len).Success? ==> (r.Success? <==> ret >= 0)
      ensures chip.Some? && Gather(offsets, len).Success? && r.Failure? ==> r.error == GetLinesFailed
      ensures r.Success? ==> fresh(r.value) && r.value.lines == filled && r.value.chip == chip
    {
      if chip.None? { return Failure(ChipClosed); }
      var values :- ReadIntegers(offsets, len);
      lib.Record(ChipGetLines(chip.value, ToUInts(values)));
      if ret < 0 { return Failure(GetLinesFailed); }
      var bulk := new LineBulk(filled, chip);
      return Success(bulk);
    }

    /** `chip:find_line(name)`: nil, not an error, when the library finds
        no line of that name. */
    method FindLine(lib: Library, name: string, found: Option<LineRef>)
      returns (r: Result<Option<Line>, Error>)
      modifies lib
      ensures chip.None? ==> r == Failure(ChipClosed) && lib.trace == old(lib.trace)
      ensures chip.Some? ==> lib.trace == old(lib.trace) + [ChipFindLine(chip.value, CString(name))]
      ensures chip.Some? ==> r.Success? && (r.value.Some? <==> found.Some?)
      ensures r.Success? && r.value.Some? ==>
        fresh(r.value.value) && r.value.value.line == found && r.value.value.chip == chip
    {
      if chip.None? { return Failure(ChipClosed); }
      lib.Record(ChipFindLine(chip.value, CString(name)));
      if found.None? { return Success(None); }
      var line := new Line(found, chip);
      return Success(Some(line));
    }

    /** `chip:get_all_lines()`. */
    method GetAllLines(lib: Library, ret: int, filled: seq<LineRef>) returns (r: Result<LineBulk, Error>)
      modifies lib
      ensures chip.None? ==> r == Failure(ChipClosed) && lib.trace == old(lib.trace)
      ensures chip.Some? ==> lib.trace == old(lib.trace) + [ChipGetAllLines(chip.value)]
      ensures chip.Some? ==> (r.Success? <==> ret >= 0)
      ensures chip.Some? && r.Failure? ==> r.error == GetAllLinesFailed
      ensures r.Success? ==> fresh(r.value) && r.value.lines == filled && r.value.chip == chip
    {
      if chip.None? { return Failure(ChipClosed); }
      lib.Record(ChipGetAllLines(chip.value));
      if ret < 0 { return Failure(GetAllLinesFailed); }
      var bulk := new LineBulk(filled, chip);
      return Success(bulk);
    }

    /** `chip:name()`. */
    method Name(lib: Library, name: string) returns (r: Result<string, Error>)
      modifies lib
      ensures chip.None? ==> r == Failure(ChipClosed) && lib.trace == old(lib.trace)
      ensures chip.Some? ==> lib.trace == old(lib.trace) + [ChipName(chip.value)] && r == Success(name)
    {
      if chip.None? { return Failure(ChipClosed); }
      lib.Record(ChipName(chip.value));
      r := Success(name);
    }

    /** `chip:label()`. */
    method Label(lib: Library, chipLabel: string) returns (r: Result<string, Error>)
      modifies lib
      ensures chip.None? ==> r == Failure(ChipClosed) && lib.trace == old(lib.trace)
      ensures chip.Some? ==> lib.trace == old(lib.trace) + [ChipLabel(chip.value)] && r == Success(chipLabel)
    {
      if chip.None? { return Failure(ChipClosed); }
      lib.Record(ChipLabel(chip.value));
      r := Success(chipLabel);
    }

    /** `chip:num_lines()`; `n` is the library's `unsigned int` answer. */
    method NumLines(lib: Library, n: nat) returns (r: Result<int, Error>)
      modifies lib
      ensures chip.None? ==> r == Failure(ChipClosed) && lib.trace == old(lib.trace)
      ensures chip.Some? ==> lib.trace == old(lib.trace) + [ChipNumLines(chip.value)] && r == Success(ToUInt(n))
    {
      if chip.None? { return Failure(ChipClosed); }
      lib.Record(ChipNumLines(chip.value));
      r := Success(ToUInt(n));
    }

    /** `chip:close()` (also `__gc`): closes the library's chip once and
        forgets it; a closed handle is left as it is. Line handles taken
        from the chip are not touched. */
    method Close(lib: Library)
      modifies this, lib
      ensures chip.None?
      ensures old(chip).Some? ==> lib.trace == old(lib.trace) + [ChipClose(old(chip).value)]
      ensures old(chip).None? ==> lib.trace == old(lib.trace)
    {
      if chip.Some? {
        lib.Record(ChipClose(chip.value));
        chip := None;
      }
    }
  }

  /** The lookup in `gpiod.chip_open`: open-by-name, then, if that failed
      and the whole name converts, open-by-number. `byName` and `byNumber`
      are what gpiod_chip_open_by_name and gpiod_chip_open_by_number return
      if they are called. The `strtoul` call, its `*endptr == '\0'` test
      and the store into `unsigned int num` are `FallbackAllowed` and
      `FallbackNumber`. */
  method OpenDevice(lib: Library, name: string, byName: Option<ChipRef>, byNumber: Option<ChipRef>)
    returns (found: Option<ChipRef>)
    modifies lib
    ensures lib.trace == old(lib.trace) + ResolveOpen(name, byName, byNumber).calls
    ensures found == ResolveOpen(name, byName, byNumber).chip
  {
    var c := CString(name);
    lib.Record(ChipOpenByName(c));
    found := byName;
    if found.Some? {
      NameResolution(name, byName, byNumber);
    } else if FallbackAllowed(name) {
      RetryResolution(name, byNumber);
      ghost var before := lib.trace;
      lib.Record(ChipOpenByNumber(FallbackNumber(name)));
      assert lib.trace == before + [ChipOpenByNumber(FallbackNumber(name))];
      assert lib.trace == old(lib.trace) + [ChipOpenByName(c), ChipOpenByNumber(FallbackNumber(name))];
      found := byNumber;
    } else {
      NoRetryResolution(name, byNumber);
    }
  }

  /** `gpiod.chip_open(name_or_number)`: a new handle holding the chip the
      lookup found, or "Failed to open GPIO chip" with the name. */
  method ChipOpen(lib: Library, name: string, byName: Option<ChipRef>, byNumber: Option<ChipRef>)
    returns (r: Result<Chip, Error>)
    modifies lib
    ensures lib.trace == old(lib.trace) + ResolveOpen(name, byName, byNumber).calls
    ensures r.Success? <==> ResolveOpen(name, byName, byNumber).chip.Some?
    ensures r.Success? ==> fresh(r.value) && r.value.chip == ResolveOpen(name, byName, byNumber).chip
    ensures r.Failure? ==> r.error == OpenFailed(CString(name))
  {
    var found := OpenDevice(lib, name, byName, byNumber);
    if found.None? {
      return Failure(OpenFailed(CString(name)));
    }
    var chip := new Chip(found);
    return Success(chip);
  }
}
