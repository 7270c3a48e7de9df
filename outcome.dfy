/** Result and option types shared by every repository module. */
module Outcome {

  datatype Option<+T> = None | Some(value: T)

  /**
   * The error categories a repository call can end in. The first six are the
   * HTTP errors the code raises on purpose (404, 403, 409, 401, 406 and the
   * 500 raised when a blob write fails); Unprocessable is a failed request
   * validation (422); Internal is an exception the code does not catch
   * (an attribute read on a missing row, a query that finds two rows where it
   * expects one, a primary-key clash), after which the session rolls back.
   */
  datatype Error =
    | NotFound
    | Forbidden
    | Conflict
    | Unauthorized
    | NotAcceptable
    | UploadFailed
    | Unprocessable
    | Internal

  datatype Result<+T> = Ok(value: T) | Err(error: Error)
}
