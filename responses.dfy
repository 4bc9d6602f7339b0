/** What a handler hands back to the router: a success payload, or the one
    error both services raise, a 404 whose JSON body is {"detail": detail}. */
module Responses {

  datatype Option<+T> = None | Some(value: T)

  datatype Response<+T> = Ok(value: T) | NotFound(detail: string)
}
