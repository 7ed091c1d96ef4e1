/** The library's return codes, as far as this model meets them. */
module Errors {
  datatype Error =
    | InvalidAxis
    | InvalidNdim
    | InvalidShape
    | InvalidChunkshape
    | InvalidBlockshape
    | InvalidItershape
    | BloscFailed
    | NotComplete
    | TooSmallBuffer

  datatype Result<+T> = Success(value: T) | Failure(error: Error)
}
