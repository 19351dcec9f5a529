/** Absent values and failed steps as data: the model's stand-ins for
    Python's `None` and for the exceptions the pipeline catches. */
module Wrappers {

  /** Either nothing (`None`, or a NaN read as missing) or one value. */
  datatype Option<+T> = None | Some(value: T) {

    /** The held value, with `default` standing in when there is none. */
    function GetOr(default: T): T {
      if Some? then value else default
    }
  }

  /** A step that either produced a value or failed with an error. */
  datatype Result<+R, +E> = Success(value: R) | Failure(error: E)
}
