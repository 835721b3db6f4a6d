/**
 * libgpiod 1.x, the C library behind the binding, seen only from outside.
 * Its objects are opaque references. The binding's model never computes
 * what the library does: every call the binding makes is appended to
 * `Library.trace`, and what the call returns is an argument supplied by the
 * caller of the binding operation.
 */
module Libgpiod {
  import opened Wrappers

  /** A `struct gpiod_chip *`. */
  datatype ChipRef = ChipRef(id: nat)
  /** A `struct gpiod_line *`. */
  datatype LineRef = LineRef(id: nat)
  /** A `struct gpiod_chip_iter *`. */
  datatype IterRef = IterRef(id: nat)

  /** The edges an event request asks for. */
  datatype Edge = Rising | Falling | Both

  // Enumeration values of gpiod.h in libgpiod 1.x.
  const DIRECTION_INPUT: int := 1
  const DIRECTION_OUTPUT: int := 2
  const ACTIVE_STATE_HIGH: int := 1
  const ACTIVE_STATE_LOW: int := 2
  const BIAS_AS_IS: int := 1
  const BIAS_DISABLE: int := 2
  const BIAS_PULL_UP: int := 3
  const BIAS_PULL_DOWN: int := 4
  const EVENT_RISING_EDGE: int := 1
  const EVENT_FALLING_EDGE: int := 2

  /** A `struct gpiod_line_event`: its type code and its timestamp. */
  datatype LineEvent = LineEvent(eventType: int, sec: int, nsec: int)

  /** One call into libgpiod, with the C arguments the binding passes. */
  datatype Call =
    | ChipOpenByName(name: string)
    | ChipOpenByNumber(num: nat)
    | ChipGetLine(chip: ChipRef, offset: nat)
    | ChipGetLines(chip: ChipRef, offsets: seq<nat>)
    | ChipFindLine(chip: ChipRef, name: string)
    | ChipGetAllLines(chip: ChipRef)
    | ChipName(chip: ChipRef)
    | ChipLabel(chip: ChipRef)
    | ChipNumLines(chip: ChipRef)
    | ChipClose(chip: ChipRef)
    | LineRequestInputFlags(line: LineRef, consumer: string, flags: int)
    | LineRequestOutputFlags(line: LineRef, consumer: string, flags: int, defaultVal: int)
    | LineRequestEdgeEvents(line: LineRef, edge: Edge, consumer: string)
    | LineRequestEdgeEventsFlags(line: LineRef, edge: Edge, consumer: string, flags: int)
    | LineGetValue(line: LineRef)
    | LineSetValue(line: LineRef, value: int)
    | LineOffset(line: LineRef)
    | LineName(line: LineRef)
    | LineConsumer(line: LineRef)
    | LineDirection(line: LineRef)
    | LineActiveState(line: LineRef)
    | LineBias(line: LineRef)
    | LineIsUsed(line: LineRef)
    | LineIsOpenDrain(line: LineRef)
    | LineIsOpenSource(line: LineRef)
    | LineUpdate(line: LineRef)
    | LineRelease(line: LineRef)
    | LineEventWait(line: LineRef, deadline: Option<real>)
    | LineEventRead(line: LineRef)
    | LineEventGetFd(line: LineRef)
    | BulkRequestInputFlags(lines: seq<LineRef>, consumer: string, flags: int)
    | BulkRequestOutputFlags(lines: seq<LineRef>, consumer: string, flags: int, values: seq<int>)
    | BulkGetValues(lines: seq<LineRef>)
    | BulkSetValues(lines: seq<LineRef>, values: seq<int>)
    | BulkRelease(lines: seq<LineRef>)
    | ChipIterNew
    | ChipIterNextNoclose(iter: IterRef)
    | ChipIterFreeNoclose(iter: IterRef)

  /** The library as the binding sees it: the calls made so far. */
  class Library {
    var trace: seq<Call>

    constructor ()
      ensures trace == []
    {
      trace := [];
    }

    /** Makes call `c`. */
    method Record(c: Call)
      modifies this
      ensures trace == old(trace) + [c]
    {
      trace := trace + [c];
    }
  }
}
