// Option and Result types shared by every module of the model.
// A Go nil pointer is None, a non-nil pointer is Some; a Go (value, error) pair is a Result.
module Wrappers {

  datatype Option<T> = None | Some(value: T)
  {
    function GetOr(default: T): T
    {
      match this
      case None => default
      case Some(v) => v
    }
  }

  datatype Result<T> = Ok(value: T) | Err(error: string)
  {
    predicate IsFailure()
    {
      Err?
    }
  }
}
