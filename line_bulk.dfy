/**
 * `gpiod.line_bulk` handles. The binding keeps the library's bulk structure
 * (the lines, in order) and the chip it came from, and never marks a bulk as
 * released: every bulk operation reaches the library.
 */
module LineBulks {
  import opened Wrappers
  import opened CRuntime
  import opened Libgpiod
  import opened Errors
  import opened LuaTables
  import opened Lines

  /** Position `index` of a bulk of `n` lines, as `bulk:get_line` checks it:
      the Lua integer is stored in an `unsigned int` first, then compared
      with `n`. */
  function BulkIndex(index: int, n: nat): (r: Result<nat, Error>)
    ensures r.Failure? <==> ToUInt(index) >= n
    ensures r.Failure? ==> r.error == IndexOutOfRange
    ensures r.Success? ==> r.value < n && r.value == ToUInt(index)
  {
    var i := ToUInt(index);
    if i >= n then Failure(IndexOutOfRange) else Success(i)
  }

  /** Indices are 0-based. An index in [INT_MIN, -1] wraps to a large
      unsigned value and is refused, while any index, negative or not, that
      differs from a valid one by a multiple of 2^32 is taken as that one. */
  lemma BulkIndexOfLuaInteger(index: int, n: nat)
    requires n <= INT_MAX
    ensures 0 <= index < UINT_MODULUS ==> (BulkIndex(index, n).Success? <==> index < n)
    ensures INT_MIN <= index < 0 ==> BulkIndex(index, n) == Failure(IndexOutOfRange)
    ensures 0 <= index < n ==> BulkIndex(index + UINT_MODULUS, n) == Success(index)
    ensures 0 <= index < n ==> BulkIndex(index - UINT_MODULUS, n) == Success(index)
  {
    if INT_MIN <= index < 0 {
      assert ToUInt(index) == index + UINT_MODULUS;
    }
    if 0 <= index < n {
      assert ToUInt(index + UINT_MODULUS) == index;
      assert ToUInt(index - UINT_MODULUS) == index;
    }
  }

  class LineBulk {
    /** The lines of the library's `struct gpiod_line_bulk`, in order. */
    const lines: seq<LineRef>
    /** The chip the bulk was taken from. */
    const chip: Option<ChipRef>

    constructor (ls: seq<LineRef>, c: Option<ChipRef>)
      ensures lines == ls && chip == c
    {
      lines := ls;
      chip := c;
    }

    /** `bulk:num_lines()`, read from the bulk structure. */
    method NumLines() returns (n: nat)
      ensures n == |lines|
    {
      n := |lines|;
    }

    /** `bulk:get_line(index)`: a new line handle for the line at 0-based
        `index`, carrying the bulk's chip. No library call is made (the bulk
        accessor reads the structure). */
    method GetLine(index: int) returns (r: Result<Line, Error>)
      ensures r.Failure? <==> ToUInt(index) >= |lines|
      ensures r.Failure? ==> r.error == IndexOutOfRange
      ensures r.Success? ==> fresh(r.value)
      ensures r.Success? ==> r.value.line == Some(lines[ToUInt(index)]) && r.value.chip == chip
    {
      var i :- BulkIndex(index, |lines|);
      var line := new Line(Some(lines[i]), chip);
      return Success(line);
    }

    /** `bulk:request_input(consumer, [flags])`. */
    method RequestInput(lib: Library, consumer: string, flags: Option<int>, ret: int)
      returns (r: Result<bool, Error>)
      modifies lib
      ensures lib.trace == old(lib.trace)
        + [BulkRequestInputFlags(lines, CString(consumer), ToInt(flags.GetOr(0)))]
      ensures r == Acknowledged(ret, BulkRequestInputFailed)
    {
      lib.Record(BulkRequestInputFlags(lines, CString(consumer), ToInt(flags.GetOr(0))));
      r := Acknowledged(ret, BulkRequestInputFailed);
    }

    /** `bulk:request_output(consumer, default_vals, [flags])`: exactly one
        default per line is read from keys 1..num_lines of the table before
        the library is called; a missing one raises the error and the
        library is not called, extra entries are ignored. */
    method RequestOutput(lib: Library, consumer: string, defaults: map<int, int>, flags: Option<int>, ret: int)
      returns (r: Result<bool, Error>)
      modifies lib
      ensures Gather(defaults, |lines|).Failure? ==>
        r == Failure(Gather(defaults, |lines|).error) && lib.trace == old(lib.trace)
      ensures Gather(defaults, |lines|).Success? ==>
        lib.trace == old(lib.trace) + [BulkRequestOutputFlags(lines, CString(consumer),
          ToInt(flags.GetOr(0)), ToInts(Gather(defaults, |lines|).value))]
      ensures Gather(defaults, |lines|).Success? ==> r == Acknowledged(ret, BulkRequestOutputFailed)
    {
      var values :- ReadIntegers(defaults, |lines|);
      lib.Record(BulkRequestOutputFlags(lines, CString(consumer), ToInt(flags.GetOr(0)), ToInts(values)));
      r := Acknowledged(ret, BulkRequestOutputFailed);
    }

    /** `bulk:get_values()`: `values` is what the library wrote into the
        array of num_lines integers; the result is a table holding them at
        keys 1..num_lines in bulk order. */
    method GetValues(lib: Library, ret: int, values: seq<int>) returns (r: Result<map<int, int>, Error>)
      requires |values| == |lines|
      modifies lib
      ensures lib.trace == old(lib.trace) + [BulkGetValues(lines)]
      ensures r.Success? <==> ret >= 0
      ensures r.Success? ==> r.value == ValuesTable(values)
      ensures r.Failure? ==> r.error == BulkReadFailed
    {
      lib.Record(BulkGetValues(lines));
      if ret < 0 {
        return Failure(BulkReadFailed);
      }
      var t := BuildValuesTable(values);
      return Success(t);
    }

    /** `bulk:set_values(values)`: the same copy rule as `request_output`. */
    method SetValues(lib: Library, values: map<int, int>, ret: int) returns (r: Result<bool, Error>)
      modifies lib
      ensures Gather(values, |lines|).Failure? ==>
        r == Failure(Gather(values, |lines|).error) && lib.trace == old(lib.trace)
      ensures Gather(values, |lines|).Success? ==>
        lib.trace == old(lib.trace) + [BulkSetValues(lines, ToInts(Gather(values, |lines|).value))]
      ensures Gather(values, |lines|).Success? ==> r == Acknowledged(ret, BulkSetFailed)
    {
      var vs :- ReadIntegers(values, |lines|);
      lib.Record(BulkSetValues(lines, ToInts(vs)));
      r := Acknowledged(ret, BulkSetFailed);
    }

    /** `bulk:release()` (also `__gc`): asks the library to release the lines
        every time it is called; the bulk itself does not change. */
    method Release(lib: Library)
      modifies lib
      ensures lib.trace == old(lib.trace) + [BulkRelease(lines)]
    {
      lib.Record(BulkRelease(lines));
    }
  }
}
