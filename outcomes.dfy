/** The errors the entity classes pass on, and what a completion handler is handed. */
module Outcomes {
  import opened Json

  /** `HomeFetcherError` (the remote side) plus the error a Core Data fetch or save throws. */
  datatype Error =
    | MissingAPIValues(reason: string)
    | URLError(reason: string)
    | DownloadError(reason: string)
    | APIError(reason: string)
    | StoreError

  /** A value, or the error a `throws` function threw. */
  datatype Result<+T> = Success(value: T) | Failure(error: Error)

  /** The completion handler of an asynchronous operation is either never called or is
      called once with an optional error. */
  datatype Completion = NotCalled | Called(error: Option<Error>)

  /** The request a `saveToAPI` sends: PATCH of the record with that uuid, or POST of a
      new record. */
  datatype Request = Edit(id: string, payload: JsonObject) | Add(payload: JsonObject)
}
