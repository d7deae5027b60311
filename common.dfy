/** Small value types shared by every module of the model. */
module Common {

  /** Something that may be absent (Go's nil pointer or nil error). */
  datatype Option<+T> = None | Some(value: T)

  /** The outcome of a step that either yields a value or stops the program
      with an error message (Go code that logs and calls `os.Exit(1)`, or
      returns `nil, err`). */
  datatype Result<+T> = Ok(value: T) | Err(error: string)

  /** A Go `(T, error)` pair where the value is meaningful even on failure
      (a zero value, or an empty string). */
  datatype Returns<+T> = Returns(value: T, err: Option<string>)
}
