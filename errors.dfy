/**
 * The Lua errors the binding raises with `luaL_error`, one constructor per
 * message, and the two ways it turns a libgpiod status into a Lua result.
 */
module Errors {
  import opened Wrappers
  import opened Libgpiod

  datatype Error =
    | OpenFailed(name: string)      // "Failed to open GPIO chip: <name>"
    | ChipClosed                    // "Chip is closed"
    | GetLineFailed(offset: nat)    // "Failed to get GPIO line: <offset>"
    | GetLinesFailed                // "Failed to get GPIO line bulk"
    | GetAllLinesFailed             // "Failed to get all GPIO lines"
    | LineReleased                  // "Line is released"
    | RequestInputFailed            // "Failed to request input mode"
    | RequestOutputFailed           // "Failed to request output mode"
    | RequestEventsFailed(edge: Edge) // "Failed to request <edge> edge(s) events"
    | ReadValueFailed               // "Failed to read GPIO value"
    | SetValueFailed                // "Failed to set GPIO value"
    | WaitFailed                    // "Failed to wait for event"
    | ReadEventFailed               // "Failed to read event"
    | GetFdFailed                   // "Failed to get event file descriptor"
    | UpdateFailed                  // "Failed to update line status"
    | IndexOutOfRange               // "Index out of range"
    | BulkRequestInputFailed        // "Failed to request bulk input mode"
    | BulkRequestOutputFailed       // "Failed to request bulk output mode"
    | BulkReadFailed                // "Failed to read bulk GPIO values"
    | BulkSetFailed                 // "Failed to set bulk GPIO values"
    | IntegerExpected(key: int)     // luaL_checkinteger on table entry `key`, which is nil

  /** A status that the binding hands back to Lua as a number when it is
      not negative. */
  function Checked(ret: int, e: Error): (r: Result<int, Error>)
    ensures r.Success? <==> ret >= 0
    ensures r.Success? ==> r.value == ret
    ensures r.Failure? ==> r.error == e
  {
    if ret < 0 then Failure(e) else Success(ret)
  }

  /** A status that the binding acknowledges with `true` when it is not
      negative. */
  function Acknowledged(ret: int, e: Error): (r: Result<bool, Error>)
    ensures r.Success? <==> ret >= 0
    ensures r.Success? ==> r.value
    ensures r.Failure? ==> r.error == e
  {
    if ret < 0 then Failure(e) else Success(true)
  }
}
