/** Option and Result types shared by every module, and the .NET exceptions the
    modelled code can raise. A C# `null` becomes `None`; a thrown exception
    becomes `Err`. */
module Wrappers {

  datatype Option<T> = None | Some(value: T)

  datatype Result<T, E> = Ok(value: T) | Err(error: E)

  /** The exceptions the engine code throws or lets escape. */
  datatype Exception =
    | ArgumentException(message: string)
    | InvalidOperationException(message: string)
    | NullReferenceException(message: string)

  function GetOrElse<T>(o: Option<T>, default: T): (r: T)
    ensures o.None? ==> r == default
    ensures o.Some? ==> r == o.value
  {
    match o
    case None => default
    case Some(v) => v
  }
}
