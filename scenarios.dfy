/**
 * Sequences of binding calls, as a Lua script would make them, and what
 * the handles' contracts let a caller conclude about them.
 */
module Scenarios {
  import opened Wrappers
  import opened CRuntime
  import opened Libgpiod
  import opened Errors
  import opened LuaTables
  import opened Lines
  import opened LineBulks
  import opened Chips
  import opened ChipIters

  /** The library calls a close or release adds: one when the handle was
      open, none otherwise. */
  function Once<T>(handle: Option<T>, call: T -> Call): (calls: seq<Call>)
    ensures handle.None? ==> calls == []
    ensures handle.Some? ==> calls == [call(handle.value)]
  {
    if handle.Some? then [call(handle.value)] else []
  }

  /** After `chip:close()`, every other chip method raises "Chip is closed"
      and no library call follows the close. */
  method ClosedChipRefusesAll(lib: Library, c: Chip, offset: int, offsets: map<int, int>, name: string)
    returns (errors: seq<Error>)
    modifies lib, c
    ensures errors == [ChipClosed, ChipClosed, ChipClosed, ChipClosed, ChipClosed, ChipClosed, ChipClosed]
    ensures lib.trace == old(lib.trace) + Once(old(c.chip), (x: ChipRef) => ChipClose(x))
  {
    c.Close(lib);
    var r1 := c.GetLine(lib, offset, Some(LineRef(0)));
    var r2 := c.GetLines(lib, offsets, 1, 0, []);
    var r3 := c.FindLine(lib, name, Some(LineRef(0)));
    var r4 := c.GetAllLines(lib, 0, []);
    var r5 := c.Name(lib, "gpiochip0");
    var r6 := c.Label(lib, "label");
    var r7 := c.NumLines(lib, 8);
    errors := [r1.error, r2.error, r3.error, r4.error, r5.error, r6.error, r7.error];
  }

  /** Closing twice leaves the same state and makes the same calls as
      closing once. */
  method CloseTwice(lib: Library, c: Chip)
    modifies lib, c
    ensures c.chip.None?
    ensures lib.trace == old(lib.trace) + Once(old(c.chip), (x: ChipRef) => ChipClose(x))
  {
    c.Close(lib);
    c.Close(lib);
  }

  /** After `line:release()`, every line method raises "Line is released"
      and no library call follows the release. */
  method ReleasedLineRefusesAll(lib: Library, l: Line, ret: int, code: int, event: LineEvent)
    returns (errors: seq<Error>)
    modifies lib, l
    ensures |errors| == 19 && forall i :: 0 <= i < |errors| ==> errors[i] == LineReleased
    ensures lib.trace == old(lib.trace) + Once(old(l.line), (x: LineRef) => LineRelease(x))
  {
    l.Release(lib);
    var r1 := l.RequestInput(lib, "app", None, ret);
    var r2 := l.RequestOutput(lib, "app", 0, None, ret);
    var r3 := l.RequestEvents(lib, Rising, "app", None, ret);
    var r4 := l.RequestEvents(lib, Both, "app", Some(0), ret);
    var r5 := l.GetValue(lib, ret);
    var r6 := l.SetValue(lib, 1, ret);
    var r7 := l.Offset(lib, 18);
    var r8 := l.Name(lib, None);
    var r9 := l.Consumer(lib, None);
    var r10 := l.Direction(lib, code);
    var r11 := l.ActiveState(lib, code);
    var r12 := l.Bias(lib, code);
    var r13 := l.IsUsed(lib, true);
    var r14 := l.IsOpenDrain(lib, false);
    var r15 := l.IsOpenSource(lib, false);
    var r16 := l.Update(lib, ret);
    var r17 := l.EventWait(lib, Some(0.0), ret);
    var r18 := l.EventRead(lib, ret, event);
    var r19 := l.EventGetFd(lib, ret);
    errors := [r1.error, r2.error, r3.error, r4.error, r5.error, r6.error, r7.error, r8.error,
               r9.error, r10.error, r11.error, r12.error, r13.error, r14.error, r15.error,
               r16.error, r17.error, r18.error, r19.error];
  }

  /** Releasing twice leaves the same state and makes the same calls as
      releasing once. */
  method ReleaseTwice(lib: Library, l: Line)
    modifies lib, l
    ensures l.line.None? && l.chip == old(l.chip)
    ensures lib.trace == old(lib.trace) + Once(old(l.line), (x: LineRef) => LineRelease(x))
  {
    l.Release(lib);
    l.Release(lib);
  }

  /** Closing a chip does not invalidate a line taken from it: the line's
      next read still reaches the library. */
  method CloseChipKeepsLine(lib: Library, c: Chip, l: Line, ret: int) returns (v: Result<int, Error>)
    requires c.chip.Some? && l.line.Some?
    modifies lib, c
    ensures l.line == old(l.line)
    ensures lib.trace == old(lib.trace) + [ChipClose(old(c.chip).value), LineGetValue(l.line.value)]
    ensures v == Checked(ret, ReadValueFailed)
  {
    c.Close(lib);
    v := l.GetValue(lib, ret);
  }

  /** A table `bulk:get_values()` returns, passed to `bulk:set_values()`,
      hands the library the values it reported, in the same order. */
  method GetThenSetValues(lib: Library, b: LineBulk, values: seq<int>, ret: int)
    returns (r: Result<bool, Error>)
    requires |values| == |b.lines|
    requires forall i :: 0 <= i < |values| ==> INT_MIN <= values[i] <= INT_MAX
    modifies lib
    ensures lib.trace == old(lib.trace) + [BulkGetValues(b.lines), BulkSetValues(b.lines, values)]
    ensures r == Acknowledged(ret, BulkSetFailed)
  {
    var table := b.GetValues(lib, 0, values);
    GatherValuesTable(values);
    assert ToInts(values) == values;
    r := b.SetValues(lib, table.value, ret);
  }

  /** Once the iterator is closed, `next` and `next_noclose` both give nil
      without calling the library. */
  method IteratorScenario(lib: Library, it: ChipIter, found: Option<ChipRef>)
    returns (a: Option<Chip>, b: Option<Chip>)
    requires it.iter.Some?
    modifies lib, it
    ensures a.None? && b.None?
    ensures it.iter.None?
    ensures lib.trace == old(lib.trace) + [ChipIterFreeNoclose(old(it.iter).value)]
  {
    it.Close(lib);
    a := it.Next(lib, found);
    b := it.NextNoclose(lib, found);
  }
}
