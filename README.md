# lua-gpiod binding, modelled in Dafny

`gpiod_lua.c` is a Lua binding for libgpiod 1.x. Lua scripts open GPIO chips
(`gpiod.chip_open`, `gpiod.chip_iter`), take lines from them (singly, by name or
as a bulk), request the lines as inputs, outputs or edge-event sources, and read
and write their values. This project models the binding's own logic and proves
what it does:

- **Chip-open resolution.** Open-by-name is tried first. Open-by-number is tried
  only when that fails and `strtoul(name, &end, 10)` consumed the whole string.
  So a numeral, and also the empty string (number 0), gets the retry. A device
  name or a numeral with trailing garbage never does.
- **Handle life cycle.** A chip handle, line handle and chip iterator each hold a
  nullable library pointer. `close`/`release` free it once, set it to NULL and
  do nothing the second time. Given well-typed arguments, every other chip
  method fails with "Chip is closed" on a closed handle, and every other line
  method with "Line is released" on a released one. In both cases the library
  is not called.
- **Bulk marshalling.** `bulk:get_line` checks the index against the bulk size
  after the index has been stored in an `unsigned int`. The copy loops read
  exactly `num_lines` table entries, in order, before the library is called. A
  missing entry raises the error and extra entries are ignored. `get_values`
  builds a table indexed from 1, in bulk order.
- **Result mapping.** `event_wait` uses no deadline when the timeout is negative
  or absent. A negative library result is an error; otherwise the result is
  `true` exactly when the library reports an event, so a timeout is a plain
  `false`. The direction, active-state, bias and event-type switches are total:
  every code outside the named ones becomes `"unknown"`.

libgpiod itself is an oracle. Every binding method takes the library's answers
as arguments: the returned pointer, the status, or the filled buffer. Each call
the binding makes is appended to `Libgpiod.Library.trace`. "Fails without
calling the library" is stated as "the trace is unchanged".

Modules, one per part of the source file: `CRuntime` (C integer conversions,
C strings, `strtoul`), `Libgpiod` (the oracle), `Errors` (the Lua error
messages), `LuaTables` (the copy loops), `Lines`, `LineBulks`, `Chips` and
`ChipIters` (the handle kinds), and `Scenarios` (call sequences a Lua script
makes, with what the contracts let a caller conclude).

Behaviour of this code that differs from what a reader of the libgpiod
documentation might expect. The model follows the code:

- Closing a chip does not invalidate the line handles taken from it. The line's
  `chip` field is written and never read (`Scenarios.CloseChipKeepsLine`).
- `iter:next()` and `iter:next_noclose()` both call
  `gpiod_chip_iter_next_noclose`, so they behave identically.
- The binding never rejects duplicate offsets in `get_lines` and never checks
  the mode before `set_value`. Both checks are left to libgpiod.
- Bulk handles have no released state. `bulk:release()` calls the library every
  time, so repeated releases are idempotent only if libgpiod makes them so.
- A defaults or values table of the wrong size does not raise a size error.
  Too few entries fail as a missing integer, and extra entries are ignored.

Assumed platform: LP64 Linux with GCC, so `int` is 32 bits, `unsigned long` is
64 bits, and out-of-range conversions to `int` wrap. The enumeration values are
those of libgpiod 1.x's `gpiod.h`. `gpiod.h` is not part of this model.

## Model

| member | source | states |
|---|---|---|
| CRuntime.ToUInt | gpiod_lua.c:74 | a value stored in an `unsigned int` is reduced modulo 2^32; values already in range are kept |
| CRuntime.ToInt | gpiod_lua.c:273 | a Lua integer stored in an `int` lands in [INT_MIN, INT_MAX], congruent modulo 2^32, unchanged when in range |
| CRuntime.ToInts | gpiod_lua.c:742-746 | each copied table value is converted to `int`, element by element, same length and order |
| CRuntime.ToUInts | gpiod_lua.c:126-130 | each copied offset is converted to `unsigned int`, element by element, same length and order |
| CRuntime.CString | gpiod_lua.c:64 | the string C sees is the longest NUL-free prefix of the Lua string |
| CRuntime.CStringWhole | gpiod_lua.c:64 | a Lua string without NUL reaches C whole |
| CRuntime.Span | gpiod_lua.c:74 | strtoul's runs of white space and digits are maximal prefixes |
| CRuntime.IsSpaceCodes | gpiod_lua.c:74 | `isspace` in the "C" locale accepts exactly the character codes 9 to 13 and 32 |
| CRuntime.DigitsValueBound | gpiod_lua.c:74 | the decimal value of k digits is below 10^k |
| CRuntime.Strtoul | gpiod_lua.c:73-74 | `strtoul` base 10: the end index is within the string and follows a digit, or is 0 with value 0 when nothing converts; the value never exceeds ULONG_MAX |
| CRuntime.StrtoulDigitsMaximal | gpiod_lua.c:73-74 | the digit run the conversion reads is maximal: it stops at a non-digit or at the end of the string |
| CRuntime.NothingConverts | gpiod_lua.c:73-75 | a string starting with a character that is neither white space, a sign nor a digit converts nothing: value 0, `endptr == nptr` |
| CRuntime.DigitsConvertWhole | gpiod_lua.c:73-75 | any non-empty run of digits converts completely, to its decimal value saturated at ULONG_MAX |
| CRuntime.Decimal | gpiod_lua.c:74-76 | a reference decimal printer: the numeral of a chip number is non-empty, all digits, and has no leading zero |
| CRuntime.DigitsValueDecimal | gpiod_lua.c:74 | the digit value reads back exactly the number the decimal printer wrote |
| CRuntime.StrtoulDecimal | gpiod_lua.c:73-75 | the numeral of any n converts completely, to n when it fits in an `unsigned long` and to ULONG_MAX otherwise |
| CRuntime.ConsumedIsNumeral | gpiod_lua.c:75 | a non-empty string that the conversion consumes entirely is white space, an optional sign and one or more digits |
| CRuntime.NumeralIsConsumed | gpiod_lua.c:75 | such a numeral is consumed entirely |
| CRuntime.NumeralValue | gpiod_lua.c:74 | any numeral (white space, an optional sign, digits) converts whole; the value is its digits, `ULONG_MAX` when they do not fit, and their negation modulo 2^64 after a '-' |
| CRuntime.ConsumesAllIff | gpiod_lua.c:75 | `*endptr == '\0'` holds exactly for the empty string and for white space, optional sign and one or more digits up to the end |
| CRuntime.StrtoulNumeral | gpiod_lua.c:73-75 | "4" converts to 4 and consumes the whole string |
| CRuntime.StrtoulDeviceName | gpiod_lua.c:73-75 | "gpiochip4" converts nothing, so `endptr` stays at the start |
| CRuntime.StrtoulTrailingGarbage | gpiod_lua.c:73-75 | "4a" and "4 " stop after the digit |
| CRuntime.StrtoulSpaceAndSign | gpiod_lua.c:73-75 | leading white space and a plus sign are consumed: " +17" gives 17, end 4 |
| CRuntime.StrtoulEmpty | gpiod_lua.c:73-75 | the empty string gives 0 with the end at index 0, which is its NUL |
| CRuntime.StrtoulNegative | gpiod_lua.c:73-75 | "-4" is negated in `unsigned long`: ULONG_MAX - 3 |
| Errors.Checked | gpiod_lua.c:297-302 | a negative status raises the given error; any other status is the result |
| Errors.Acknowledged | gpiod_lua.c:260-266 | a negative status raises the given error; any other status gives `true` |
| LuaTables.Gather | gpiod_lua.c:790-794 | reading keys 1..n succeeds iff all are present, giving `t[1..n]` in order; otherwise the error names the first missing key |
| LuaTables.GatherFailureSticks | gpiod_lua.c:742-746 | once a key is missing, reading more keys raises the same error |
| LuaTables.GatherIgnoresOtherKeys | gpiod_lua.c:790-794 | entries outside keys 1..n do not affect the copy |
| LuaTables.ReadIntegers | gpiod_lua.c:742-746 | the copy loop computes exactly `Gather(t, n)`, stopping at the first missing key |
| LuaTables.ValuesTable | gpiod_lua.c:772-776 | the result table has keys exactly 1..n, with `values[i]` at key i + 1 |
| LuaTables.BuildValuesTable | gpiod_lua.c:772-776 | the fill loop builds exactly `ValuesTable(values)` |
| LuaTables.GatherValuesTable | gpiod_lua.c:759-805 | a `get_values` table, read back by the copy loop, gives the same values in the same order |
| Lines.DirectionLabel | gpiod_lua.c:379-389 | "input" iff INPUT, "output" iff OUTPUT, "unknown" iff any other code |
| Lines.ActiveStateLabel | gpiod_lua.c:602-612 | "high" iff HIGH, "low" iff LOW, "unknown" iff any other code |
| Lines.BiasLabel | gpiod_lua.c:625-641 | one label per bias code, each iff that code, "unknown" iff none of them |
| Lines.EventTypeLabel | gpiod_lua.c:824-834 | "rising_edge" iff RISING, "falling_edge" iff FALLING, "unknown" iff any other code |
| Lines.Deadline | gpiod_lua.c:537-544 | no deadline iff the timeout is absent (default -1) or negative; otherwise the deadline is the timeout |
| Lines.WaitResult | gpiod_lua.c:546-551 | the result is an error iff ret < 0, `true` iff ret > 0, and `false` iff ret == 0 |
| Lines.Line.constructor | gpiod_lua.c:99-101 | a new handle holds the library's line and the chip pointer it was given |
| Lines.Line.RequestInput | gpiod_lua.c:251-267 | released: "Line is released", no call; otherwise one input request with the C consumer and the flags (default 0, as `int`), and the status acknowledged |
| Lines.Line.RequestOutput | gpiod_lua.c:270-287 | as for input, passing the default value as `int` |
| Lines.Line.RequestEvents | gpiod_lua.c:418-526 | released: error, no call; otherwise the library's plain or `_flags` edge request, and the status acknowledged with the edge's error |
| Lines.Line.GetValue | gpiod_lua.c:290-304 | released: error, no call; otherwise one read, and a negative result raises |
| Lines.Line.SetValue | gpiod_lua.c:307-322 | released: error, no call; otherwise one write of the value as `int`, without a mode check |
| Lines.Line.Offset | gpiod_lua.c:325-334 | released: error, no call; otherwise the library's offset |
| Lines.Line.Name | gpiod_lua.c:337-351 | released: error, no call; otherwise the name, or nil when there is none |
| Lines.Line.Consumer | gpiod_lua.c:354-368 | released: error, no call; otherwise the consumer, or nil |
| Lines.Line.Direction | gpiod_lua.c:371-391 | released: error, no call; otherwise the direction's label |
| Lines.Line.IsUsed | gpiod_lua.c:394-403 | released: error, no call; otherwise the library's flag |
| Lines.Line.Release | gpiod_lua.c:406-415 | afterwards the handle is released; the library release is called iff the handle was live; the chip pointer is unchanged |
| Lines.Line.EventWait | gpiod_lua.c:529-553 | released: error, no call; otherwise one wait with `Deadline(timeout)` and the result `WaitResult(ret)` |
| Lines.Line.EventRead | gpiod_lua.c:556-574 | released: error, no call; otherwise the event the library filled in, or an error when ret < 0 |
| Lines.Line.EventGetFd | gpiod_lua.c:577-591 | released: error, no call; otherwise the descriptor, or an error when negative |
| Lines.Line.ActiveState | gpiod_lua.c:594-614 | released: error, no call; otherwise the active state's label |
| Lines.Line.Bias | gpiod_lua.c:617-643 | released: error, no call; otherwise the bias's label |
| Lines.Line.IsOpenDrain | gpiod_lua.c:646-655 | released: error, no call; otherwise the library's flag |
| Lines.Line.IsOpenSource | gpiod_lua.c:658-667 | released: error, no call; otherwise the library's flag |
| Lines.Line.Update | gpiod_lua.c:670-684 | released: error, no call; otherwise one update, and the status acknowledged |
| LineBulks.BulkIndex | gpiod_lua.c:701-705 | "Index out of range" iff the index as `unsigned int` is >= num_lines; otherwise that index |
| LineBulks.BulkIndexOfLuaInteger | gpiod_lua.c:701-705 | indices are 0-based; an index in [INT_MIN, -1] is refused; an index 2^32 above or below a valid one, negative or not, aliases it |
| LineBulks.LineBulk.NumLines | gpiod_lua.c:691-696 | the number of lines in the bulk |
| LineBulks.LineBulk.GetLine | gpiod_lua.c:699-715 | fails iff the index is out of range; otherwise a new line handle for that position carrying the bulk's chip, with no library call |
| LineBulks.LineBulk.RequestInput | gpiod_lua.c:718-730 | no released guard: always one bulk input request, status acknowledged |
| LineBulks.LineBulk.RequestOutput | gpiod_lua.c:733-757 | a missing default raises before any call; otherwise one request with exactly num_lines defaults in order, as `int` |
| LineBulks.LineBulk.GetValues | gpiod_lua.c:760-780 | always one bulk read; an error iff ret < 0, otherwise the values at keys 1..n in bulk order |
| LineBulks.LineBulk.SetValues | gpiod_lua.c:783-805 | a missing value raises before any call; otherwise one write of exactly num_lines values in order |
| LineBulks.LineBulk.Release | gpiod_lua.c:808-813 | calls the library's bulk release every time; the bulk is unchanged |
| Chips.FallbackOnlyForNumerals | gpiod_lua.c:73-76 | `FallbackAllowed`, the `*endptr == '\0'` test, holds exactly for the empty name and numerals |
| Chips.FallbackNumber | gpiod_lua.c:74 | the retry number fits in an `unsigned int`; its value is given by the three lemmas below |
| Chips.FallbackDigits | gpiod_lua.c:73-76 | a name of digits only is retried with its decimal value, saturated at ULONG_MAX and reduced modulo 2^32 |
| Chips.FallbackNumeralValue | gpiod_lua.c:73-76 | a NUL-free numeral name, leading white space and sign included, is retried with the `unsigned int` truncation of `strtoul`'s value for it |
| Chips.FallbackMinusOne | gpiod_lua.c:73-76 | "-1" is retried as chip 4294967295 |
| Chips.FallbackDecimal | gpiod_lua.c:73-76 | the numeral of chip number n is retried, as n itself when n fits in an `unsigned int` and as n modulo 2^32 when it fits in an `unsigned long` |
| Chips.FallbackTruncates | gpiod_lua.c:74-76 | "4294967296" is retried as chip number 0, because the conversion is stored in an `unsigned int` |
| Chips.ResolveOpen | gpiod_lua.c:69-82 | a chip iff open-by-name succeeds, or it fails and the name fully converts and open-by-number succeeds; by-name is always tried first, and by-number only in that case |
| Chips.FallbackNumeral | gpiod_lua.c:73-76 | "4" is retried as number 4 |
| Chips.NoFallbackForNames | gpiod_lua.c:73-76 | a NUL-free name starting with anything but white space, a sign or a digit, such as "gpiochip4", is never retried |
| Chips.NoFallbackForTrailingGarbage | gpiod_lua.c:73-76 | a NUL-free name whose last character is not a digit, such as "4a" or "4 ", is never retried |
| Chips.FallbackEmpty | gpiod_lua.c:73-76 | "" is retried as number 0 |
| Chips.NameResolution | gpiod_lua.c:69-71 | a name the library knows is opened with that single call |
| Chips.RetryResolution | gpiod_lua.c:69-77 | an unknown name that fully converts makes both calls, the second with `FallbackNumber`, and gets the by-number result |
| Chips.NoRetryResolution | gpiod_lua.c:69-76 | an unknown name that does not fully convert fails after one call |
| Chips.OpenByNumberScenario | gpiod_lua.c:69-82 | "4" unknown by name opens chip number 4 after exactly two calls |
| Chips.UnknownNameScenario | gpiod_lua.c:69-82 | "gpiochip4" unknown by name fails after one call |
| Chips.OpenDevice | gpiod_lua.c:69-78 | the lookup makes exactly `ResolveOpen`'s calls and yields its chip |
| Chips.ChipOpen | gpiod_lua.c:63-88 | makes exactly `ResolveOpen`'s calls; returns a new handle holding its chip, or "Failed to open GPIO chip" with the name |
| Chips.Chip.GetLine | gpiod_lua.c:91-111 | closed: "Chip is closed", no call; otherwise one lookup of the offset as `unsigned int`; a new line handle with the chip, or an error naming the offset |
| Chips.Chip.GetLines | gpiod_lua.c:114-148 | closed: error, no call; a missing offset raises before any call; otherwise one call with the offsets in order; a new bulk iff ret >= 0 |
| Chips.Chip.FindLine | gpiod_lua.c:151-173 | closed: error, no call; otherwise one lookup; nil (not an error) iff the library finds nothing |
| Chips.Chip.GetAllLines | gpiod_lua.c:176-196 | closed: error, no call; otherwise one call; a new bulk with the chip iff ret >= 0 |
| Chips.Chip.Name | gpiod_lua.c:199-208 | closed: error, no call; otherwise the library's name |
| Chips.Chip.Label | gpiod_lua.c:211-220 | closed: error, no call; otherwise the library's label |
| Chips.Chip.NumLines | gpiod_lua.c:223-232 | closed: error, no call; otherwise the library's line count |
| Chips.Chip.Close | gpiod_lua.c:235-244 | afterwards the handle is closed; the library close is called iff it was open |
| ChipIters.ChipIter.NextNoclose | gpiod_lua.c:892-913 | closed: nil, no call; otherwise one non-closing advance; a new chip handle iff the library gives a chip |
| ChipIters.ChipIter.Next | gpiod_lua.c:868-889 | the same call and the same result as `NextNoclose` |
| ChipIters.ChipIter.Close | gpiod_lua.c:916-925 | afterwards the iterator is closed; the non-closing free is called iff it was open |
| ChipIters.NewChipIter | gpiod_lua.c:852-865 | one call; an iterator handle iff the library made one, otherwise nil |
| Scenarios.ClosedChipRefusesAll | gpiod_lua.c:90-244 | after close, all seven chip methods raise "Chip is closed" and the library sees nothing after the close |
| Scenarios.CloseTwice | gpiod_lua.c:235-244 | closing twice makes the same calls as closing once |
| Scenarios.ReleasedLineRefusesAll | gpiod_lua.c:250-684 | after release, nineteen calls to the eighteen Dafny line methods other than `Release`, which cover the 23 Lua line methods other than `release` (the six edge requests are one method, called twice), all raise "Line is released" and the library sees nothing after the release |
| Scenarios.ReleaseTwice | gpiod_lua.c:406-415 | releasing twice makes the same calls as releasing once |
| Scenarios.CloseChipKeepsLine | gpiod_lua.c:99-101 | after the chip is closed, a line from it still reaches the library |
| Scenarios.GetThenSetValues | gpiod_lua.c:759-805 | a table from `get_values` passed to `set_values` hands the library the same values in the same order |
| Scenarios.IteratorScenario | gpiod_lua.c:867-925 | after close, both `next` and `next_noclose` give nil without a call |

## Left out

- Lua plumbing (gpiod_lua.c:949-1119): userdata allocation, metatables, method tables, module registration and the constant tables. Argument type checks on plain arguments are represented by the Dafny parameter types. In the source every argument check of a chip or line method runs before its closed or released guard (for example gpiod_lua.c:93 before 95, 116 before 118, 153 before 155, 253-254 before 256, 273 before 276, 309 before 311, 420 before 422), so a wrongly typed argument on a closed or released handle raises the argument error instead; the model, whose arguments are always well typed, does not show that order. The `__gc` metamethods are the same functions as `close`/`release` and are modelled by them.
- libgpiod's behaviour: what requests, reads, writes, waits and lookups return. Those results are oracle arguments, and only the calls are recorded. Exclusivity, bulk atomicity, duplicate offsets, offset ranges and event queues all belong to libgpiod.
- Floating point: `gpiod.sleep` (gpiod_lua.c:51-56, 932-936) and `event:timestamp()` (gpiod_lua.c:843) are left out. They are float arithmetic, and sleep is a system call.
- Lines.Line.EventWait: the timeout is a real number, so a NaN timeout (which also gets no deadline) is not modelled. The deadline is recorded as that real. The split into seconds and nanoseconds (gpiod_lua.c:541-542) is float-to-integer conversion and is not modelled.
- `gpiod.version()`: a pass-through of the library's string.
- LuaTables.Gather: a Lua table is modelled as integers or nil. `luaL_checkinteger` also accepts floats with integral values and numeric strings, and rejects other values. Here those cases stand for either "present" or "absent".
- Chips.Chip.GetLines: `len` is the length `lua_rawlen` reports. Its narrowing to `int` beyond 2^31 entries is not modelled.
- `malloc`/`free` of the temporary arrays. The values are modelled as sequences, and the leak of those arrays when `luaL_checkinteger` raises mid-loop is not modelled.
- CRuntime.Strtoul: assumes a 64-bit `unsigned long` and glibc's choice of ULONG_MAX for an overflowing magnitude, whatever its sign.
- Errors: each message is a constructor. The `%s`/`%d` formatting is not modelled, and `GetLineFailed` holds the `unsigned int` offset that `%d` prints.
