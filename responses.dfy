/** Outcomes shared by the three applications: an optional value (Python's
    None), and a handler result that is either the response payload or the
    HTTP error the handler aborts with. */
module Responses {

  datatype Option<T> = None | Some(value: T)

  /** The statuses the handlers abort with. ServerError stands for an
      exception that nothing catches, which Flask answers with 500. */
  datatype HttpError =
    | NotFound      // 404
    | Unprocessable // 422
    | ServerError   // 500

  datatype Result<T> = Success(value: T) | Failure(error: HttpError)
}
