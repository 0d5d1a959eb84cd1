/** Option, and the replies of the gRPC handlers with their error codes. */
module Wrappers {

  datatype Option<+T> = None | Some(value: T)

  datatype Reply<+T> =
    | Ok(value: T)
    | PermissionDenied
    | NotFound
    | AlreadyExists
    | InvalidArgument
    | Unauthenticated
    | Internal
}
