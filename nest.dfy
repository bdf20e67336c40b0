/** The HTTP exceptions the order service's guards and service throw. */
module Nest {
  datatype HttpException =
    | Unauthorized(message: string)
    | Forbidden(message: string)
    | NotFound(message: string)
}
