/** Option and Result, used for the optional keys of a compose service and
    for the exception that createDockerCompose can raise. */
module Wrappers {

  datatype Option<+T> = None | Some(value: T)

  datatype Result<+R, +E> = Success(value: R) | Failure(error: E)
}
