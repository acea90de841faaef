/** The answer dictionaries the services return, as a value. */
module Replies {

  /**
   * `{"success": True}`, `{"success": True, "message": m}`,
   * `{"success": True, "speedKmh": v}`, `{"success": False, "error": e}`, or
   * an exception raised out of the call.
   */
  datatype Response = Success | Notice(message: string) | SpeedSet(speedKmh: real) | Failure(error: string) | Raised
}
