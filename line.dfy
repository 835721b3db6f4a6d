/**
 * `gpiod.line` handles and the pure rules behind their methods: the labels
 * the property accessors return, and how `event_wait` turns its timeout
 * into a deadline and the library's answer into a Lua value.
 */
module Lines {
  import opened Wrappers
  import opened CRuntime
  import opened Libgpiod
  import opened Errors

  // ---------------------------------------------------------------------------
  // Labels
  // ---------------------------------------------------------------------------

  /** The name `line:direction()` gives a direction code. */
  function DirectionLabel(code: int): (s: string)
    ensures s == "input" <==> code == DIRECTION_INPUT
    ensures s == "output" <==> code == DIRECTION_OUTPUT
    ensures s == "unknown" <==> code != DIRECTION_INPUT && code != DIRECTION_OUTPUT
  {
    if code == DIRECTION_INPUT then "input"
    else if code == DIRECTION_OUTPUT then "output"
    else "unknown"
  }

  /** The name `line:active_state()` gives an active-state code. */
  function ActiveStateLabel(code: int): (s: string)
    ensures s == "high" <==> code == ACTIVE_STATE_HIGH
    ensures s == "low" <==> code == ACTIVE_STATE_LOW
    ensures s == "unknown" <==> code != ACTIVE_STATE_HIGH && code != ACTIVE_STATE_LOW
  {
    if code == ACTIVE_STATE_HIGH then "high"
    else if code == ACTIVE_STATE_LOW then "low"
    else "unknown"
  }

  /** The name `line:bias()` gives a bias code. */
  function BiasLabel(code: int): (s: string)
    ensures s == "as_is" <==> code == BIAS_AS_IS
    ensures s == "disable" <==> code == BIAS_DISABLE
    ensures s == "pull_up" <==> code == BIAS_PULL_UP
    ensures s == "pull_down" <==> code == BIAS_PULL_DOWN
    ensures s == "unknown" <==> code !in {BIAS_AS_IS, BIAS_DISABLE, BIAS_PULL_UP, BIAS_PULL_DOWN}
  {
    if code == BIAS_AS_IS then "as_is"
    else if code == BIAS_DISABLE then "disable"
    else if code == BIAS_PULL_UP then "pull_up"
    else if code == BIAS_PULL_DOWN then "pull_down"
    else "unknown"
  }

  /** The name `event:event_type()` gives an event type code. */
  function EventTypeLabel(code: int): (s: string)
    ensures s == "rising_edge" <==> code == EVENT_RISING_EDGE
    ensures s == "falling_edge" <==> code == EVENT_FALLING_EDGE
    ensures s == "unknown" <==> code != EVENT_RISING_EDGE && code != EVENT_FALLING_EDGE
  {
    if code == EVENT_RISING_EDGE then "rising_edge"
    else if code == EVENT_FALLING_EDGE then "falling_edge"
    else "unknown"
  }

  // ---------------------------------------------------------------------------
  // event_wait
  // ---------------------------------------------------------------------------

  /** The deadline `line:event_wait(timeout)` passes to the library: none
      (wait forever) when the timeout is negative or absent (it defaults to
      -1), otherwise the timeout itself. */
  function Deadline(timeout: Option<real>): (d: Option<real>)
    ensures d.None? <==> timeout.None? || timeout.value < 0.0
    ensures d.Some? ==> d.value == timeout.value && d.value >= 0.0
  {
    var t := timeout.GetOr(-1.0);
    if t >= 0.0 then Some(t) else None
  }

  /** What `line:event_wait` makes of the library's result: an error when it
      is negative, otherwise whether an event is ready, so that a timeout is
      a plain `false`. */
  function WaitResult(ret: int): (r: Result<bool, Error>)
    ensures r.Failure? <==> ret < 0
    ensures r.Failure? ==> r.error == WaitFailed
    ensures r == Success(true) <==> ret > 0
    ensures r == Success(false) <==> ret == 0
  {
    if ret < 0 then Failure(WaitFailed) else Success(ret > 0)
  }

  // ---------------------------------------------------------------------------
  // The handle
  // ---------------------------------------------------------------------------

  /**
   * A `gpiod.line` userdata: the library's line, NULL once released, and the
   * chip it came from. Every method except `release` refuses to run on a
   * released handle and then calls the library without a call of its own in
   * between. The `chip` field is written when the handle is made and never
   * read, so after the chip is closed the handle is not refused: its calls
   * still reach the library, whatever the library then does with them.
   */
  class Line {
    var line: Option<LineRef>
    var chip: Option<ChipRef>

    constructor (l: Option<LineRef>, c: Option<ChipRef>)
      ensures line == l && chip == c
    {
      line := l;
      chip := c;
    }

    /** `line:request_input(consumer, [flags])`; flags default to 0. */
    method RequestInput(lib: Library, consumer: string, flags: Option<int>, ret: int)
      returns (r: Result<bool, Error>)
      modifies lib
      ensures line.None? ==> r == Failure(LineReleased) && lib.trace == old(lib.trace)
      ensures line.Some? ==>
        lib.trace == old(lib.trace) + [LineRequestInputFlags(line.value, CString(consumer), ToInt(flags.GetOr(0)))]
      ensures line.Some? ==> r == Acknowledged(ret, RequestInputFailed)
    {
      if line.None? { return Failure(LineReleased); }
      lib.Record(LineRequestInputFlags(line.value, CString(consumer), ToInt(flags.GetOr(0))));
      r := Acknowledged(ret, RequestInputFailed);
    }

    /** `line:request_output(consumer, default_val, [flags])`. */
    method RequestOutput(lib: Library, consumer: string, defaultVal: int, flags: Option<int>, ret: int)
      returns (r: Result<bool, Error>)
      modifies lib
      ensures line.None? ==> r == Failure(LineReleased) && lib.trace == old(lib.trace)
      ensures line.Some? ==>
        lib.trace == old(lib.trace) + [LineRequestOutputFlags(line.value, CString(consumer), ToInt(flags.GetOr(0)), ToInt(defaultVal))]
      ensures line.Some? ==> r == Acknowledged(ret, RequestOutputFailed)
    {
      if line.None? { return Failure(LineReleased); }
      lib.Record(LineRequestOutputFlags(line.value, CString(consumer), ToInt(flags.GetOr(0)), ToInt(defaultVal)));
      r := Acknowledged(ret, RequestOutputFailed);
    }

    /** The six edge-event requests: `line:request_<edge>_events(consumer)`
        when `flags` is None, `line:request_<edge>_events_flags(consumer,
        flags)` otherwise. Both forms raise the same error. */
    method RequestEvents(lib: Library, edge: Edge, consumer: string, flags: Option<int>, ret: int)
      returns (r: Result<bool, Error>)
      modifies lib
      ensures line.None? ==> r == Failure(LineReleased) && lib.trace == old(lib.trace)
      ensures line.Some? && flags.None? ==>
        lib.trace == old(lib.trace) + [LineRequestEdgeEvents(line.value, edge, CString(consumer))]
      ensures line.Some? && flags.Some? ==>
        lib.trace == old(lib.trace) + [LineRequestEdgeEventsFlags(line.value, edge, CString(consumer), ToInt(flags.value))]
      ensures line.Some? ==> r == Acknowledged(ret, RequestEventsFailed(edge))
    {
      if line.None? { return Failure(LineReleased); }
      if flags.None? {
        lib.Record(LineRequestEdgeEvents(line.value, edge, CString(consumer)));
      } else {
        lib.Record(LineRequestEdgeEventsFlags(line.value, edge, CString(consumer), ToInt(flags.value)));
      }
      r := Acknowledged(ret, RequestEventsFailed(edge));
    }

    /** `line:get_value()`; `ret` is what gpiod_line_get_value returns. */
    method GetValue(lib: Library, ret: int) returns (r: Result<int, Error>)
      modifies lib
      ensures line.None? ==> r == Failure(LineReleased) && lib.trace == old(lib.trace)
      ensures line.Some? ==> lib.trace == old(lib.trace) + [LineGetValue(line.value)]
      ensures line.Some? ==> r == Checked(ret, ReadValueFailed)
    {
      if line.None? { return Failure(LineReleased); }
      lib.Record(LineGetValue(line.value));
      r := Checked(ret, ReadValueFailed);
    }

    /** `line:set_value(value)`: no check of the line's mode is made here. */
    method SetValue(lib: Library, value: int, ret: int) returns (r: Result<bool, Error>)
      modifies lib
      ensures line.None? ==> r == Failure(LineReleased) && lib.trace == old(lib.trace)
      ensures line.Some? ==> lib.trace == old(lib.trace) + [LineSetValue(line.value, ToInt(value))]
      ensures line.Some? ==> r == Acknowledged(ret, SetValueFailed)
    {
      if line.None? { return Failure(LineReleased); }
      lib.Record(LineSetValue(line.value, ToInt(value)));
      r := Acknowledged(ret, SetValueFailed);
    }

    /** `line:offset()`; `offset` is the library's `unsigned int` answer. */
    method Offset(lib: Library, offset: nat) returns (r: Result<int, Error>)
      modifies lib
      ensures line.None? ==> r == Failure(LineReleased) && lib.trace == old(lib.trace)
      ensures line.Some? ==> lib.trace == old(lib.trace) + [LineOffset(line.value)]
      ensures line.Some? ==> r == Success(ToUInt(offset))
    {
      if line.None? { return Failure(LineReleased); }
      lib.Record(LineOffset(line.value));
      r := Success(ToUInt(offset));
    }

    /** `line:name()`: nil when the library has no name for the line. */
    method Name(lib: Library, name: Option<string>) returns (r: Result<Option<string>, Error>)
      modifies lib
      ensures line.None? ==> r == Failure(LineReleased) && lib.trace == old(lib.trace)
      ensures line.Some? ==> lib.trace == old(lib.trace) + [LineName(line.value)]
      ensures line.Some? ==> r == Success(name)
    {
      if line.None? { return Failure(LineReleased); }
      lib.Record(LineName(line.value));
      r := Success(name);
    }

    /** `line:consumer()`: nil when the line has no consumer. */
    method Consumer(lib: Library, consumer: Option<string>) returns (r: Result<Option<string>, Error>)
      modifies lib
      ensures line.None? ==> r == Failure(LineReleased) && lib.trace == old(lib.trace)
      ensures line.Some? ==> lib.trace == old(lib.trace) + [LineConsumer(line.value)]
      ensures line.Some? ==> r == Success(consumer)
    {
      if line.None? { return Failure(LineReleased); }
      lib.Record(LineConsumer(line.value));
      r := Success(consumer);
    }

    /** `line:direction()`. */
    method Direction(lib: Library, code: int) returns (r: Result<string, Error>)
      modifies lib
      ensures line.None? ==> r == Failure(LineReleased) && lib.trace == old(lib.trace)
      ensures line.Some? ==> lib.trace == old(lib.trace) + [LineDirection(line.value)]
      ensures line.Some? ==> r == Success(DirectionLabel(code))
    {
      if line.None? { return Failure(LineReleased); }
      lib.Record(LineDirection(line.value));
      r := Success(DirectionLabel(code));
    }

    /** `line:active_state()`. */
    method ActiveState(lib: Library, code: int) returns (r: Result<string, Error>)
      modifies lib
      ensures line.None? ==> r == Failure(LineReleased) && lib.trace == old(lib.trace)
      ensures line.Some? ==> lib.trace == old(lib.trace) + [LineActiveState(line.value)]
      ensures line.Some? ==> r == Success(ActiveStateLabel(code))
    {
      if line.None? { return Failure(LineReleased); }
      lib.Record(LineActiveState(line.value));
      r := Success(ActiveStateLabel(code));
    }

    /** `line:bias()`. */
    method Bias(lib: Library, code: int) returns (r: Result<string, Error>)
      modifies lib
      ensures line.None? ==> r == Failure(LineReleased) && lib.trace == old(lib.trace)
      ensures line.Some? ==> lib.trace == old(lib.trace) + [LineBias(line.value)]
      ensures line.Some? ==> r == Success(BiasLabel(code))
    {
      if line.None? { return Failure(LineReleased); }
      lib.Record(LineBias(line.value));
      r := Success(BiasLabel(code));
    }

    /** `line:is_used()`. */
    method IsUsed(lib: Library, used: bool) returns (r: Result<bool, Error>)
      modifies lib
      ensures line.None? ==> r == Failure(LineReleased) && lib.trace == old(lib.trace)
      ensures line.Some? ==> lib.trace == old(lib.trace) + [LineIsUsed(line.value)]
      ensures line.Some? ==> r == Success(used)
    {
      if line.None? { return Failure(LineReleased); }
      lib.Record(LineIsUsed(line.value));
      r := Success(used);
    }

    /** `line:is_open_drain()`. */
    method IsOpenDrain(lib: Library, openDrain: bool) returns (r: Result<bool, Error>)
      modifies lib
      ensures line.None? ==> r == Failure(LineReleased) && lib.trace == old(lib.trace)
      ensures line.Some? ==> lib.trace == old(lib.trace) + [LineIsOpenDrain(line.value)]
      ensures line.Some? ==> r == Success(openDrain)
    {
      if line.None? { return Failure(LineReleased); }
      lib.Record(LineIsOpenDrain(line.value));
      r := Success(openDrain);
    }

    /** `line:is_open_source()`. */
    method IsOpenSource(lib: Library, openSource: bool) returns (r: Result<bool, Error>)
      modifies lib
      ensures line.None? ==> r == Failure(LineReleased) && lib.trace == old(lib.trace)
      ensures line.Some? ==> lib.trace == old(lib.trace) + [LineIsOpenSource(line.value)]
      ensures line.Some? ==> r == Success(openSource)
    {
      if line.None? { return Failure(LineReleased); }
      lib.Record(LineIsOpenSource(line.value));
      r := Success(openSource);
    }

    /** `line:update()`. */
    method Update(lib: Library, ret: int) returns (r: Result<bool, Error>)
      modifies lib
      ensures line.None? ==> r == Failure(LineReleased) && lib.trace == old(lib.trace)
      ensures line.Some? ==> lib.trace == old(lib.trace) + [LineUpdate(line.value)]
      ensures line.Some? ==> r == Acknowledged(ret, UpdateFailed)
    {
      if line.None? { return Failure(LineReleased); }
      lib.Record(LineUpdate(line.value));
      r := Acknowledged(ret, UpdateFailed);
    }

    /** `line:event_wait([timeout])`. */
    method EventWait(lib: Library, timeout: Option<real>, ret: int) returns (r: Result<bool, Error>)
      modifies lib
      ensures line.None? ==> r == Failure(LineReleased) && lib.trace == old(lib.trace)
      ensures line.Some? ==> lib.trace == old(lib.trace) + [LineEventWait(line.value, Deadline(timeout))]
      ensures line.Some? ==> r == WaitResult(ret)
    {
      if line.None? { return Failure(LineReleased); }
      lib.Record(LineEventWait(line.value, Deadline(timeout)));
      r := WaitResult(ret);
    }

    /** `line:event_read()`: the event the library filled in. */
    method EventRead(lib: Library, ret: int, event: LineEvent) returns (r: Result<LineEvent, Error>)
      modifies lib
      ensures line.None? ==> r == Failure(LineReleased) && lib.trace == old(lib.trace)
      ensures line.Some? ==> lib.trace == old(lib.trace) + [LineEventRead(line.value)]
      ensures line.Some? ==> (r.Success? <==> ret >= 0)
      ensures line.Some? && r.Success? ==> r.value == event
      ensures line.Some? && r.Failure? ==> r.error == ReadEventFailed
    {
      if line.None? { return Failure(LineReleased); }
      lib.Record(LineEventRead(line.value));
      if ret < 0 { return Failure(ReadEventFailed); }
      r := Success(event);
    }

    /** `line:event_get_fd()`. */
    method EventGetFd(lib: Library, fd: int) returns (r: Result<int, Error>)
      modifies lib
      ensures line.None? ==> r == Failure(LineReleased) && lib.trace == old(lib.trace)
      ensures line.Some? ==> lib.trace == old(lib.trace) + [LineEventGetFd(line.value)]
      ensures line.Some? ==> r == Checked(fd, GetFdFailed)
    {
      if line.None? { return Failure(LineReleased); }
      lib.Record(LineEventGetFd(line.value));
      r := Checked(fd, GetFdFailed);
    }

    /** `line:release()` (also the `__gc` metamethod): releases the library's
        line once and forgets it; a released handle is left as it is. Only
        this handle changes. */
    method Release(lib: Library)
      modifies this, lib
      ensures line.None?
      ensures chip == old(chip)
      ensures old(line).Some? ==> lib.trace == old(lib.trace) + [LineRelease(old(line).value)]
      ensures old(line).None? ==> lib.trace == old(lib.trace)
    {
      if line.Some? {
        lib.Record(LineRelease(line.value));
        line := None;
      }
    }
  }
}
