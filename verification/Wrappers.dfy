/** Result types shared by the model: the source's exceptions become `Failure` values. */
module Wrappers {

  datatype Option<+T> = None | Some(value: T)

  datatype Result<+T> = Success(value: T) | Failure(error: Error)

  /** The exception classes of common/exceptions.hpp the modelled code throws, plus
      `OutOfBounds` for a write or read that leaves the memory it was given and `BadAlloc` for
      an allocation no machine can satisfy. */
  datatype Error =
    | InvalidArgument
    | InvalidMessage
    | NotImplemented
    | InvalidProcessState
    | InvalidConfiguration
    | ObjectExists
    | ObjectDoesNotExist
    | OutOfBounds
    | BadAlloc
    | PraaSException
}
