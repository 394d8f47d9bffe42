/** Small value types shared by every view of the race-kit console. */
module Common {

  /** A value that may be absent: a nullable or optional field of a row. */
  datatype Option<+T> = None | Some(value: T)

  /** What the hosted backend answered to one request. The backend is not
      part of this model: each request's answer is chosen by the caller of
      the view operation. `Failed` is an error object returned by the client
      library; `Thrown` is an exception that reaches a view's `catch` block. */
  datatype Reply = Ok | Failed(message: string) | Thrown

  /** Identifiers of rows and of authenticated users (UUID strings in the
      backend; only their equality matters here). */
  type Id = nat
}
