/** Option and Result as the Rust code uses them: an optional slot, and a
    fallible call whose error is a message. */
module Wrappers {

  datatype Option<+T> = None | Some(value: T)
  {
    /** The value, if any, as a sequence of length at most one. */
    function ToSeq(): (s: seq<T>)
      ensures |s| <= 1 && (Some? <==> |s| == 1) && (Some? ==> s[0] == value)
    {
      if Some? then [value] else []
    }
  }

  /** `Result<T, String>`: either a value or an error message. */
  datatype Result<+T> = Ok(value: T) | Err(error: string)
}
