/** Optional values, Go-style (value, error) returns, and runs that may stop
    the whole program (log.Fatal or a nil-pointer panic). */
module Outcomes {

  datatype Option<T> = None | Some(value: T)

  /** A Go function returning (T, error). */
  datatype Result<T> = Ok(value: T) | Err(error: string)

  /** How the program stops: log.Fatal* or a runtime panic. */
  datatype Exit = LogFatal(message: string) | Panic(message: string)

  /** The runtime error of a nil map or pointer access. */
  const NilDereference: string := "nil pointer dereference"

  /** A computation that either returns or ends the process. */
  datatype Run<T> = Done(value: T) | Stopped(exit: Exit)
}
