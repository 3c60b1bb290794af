/** Vocabulary shared by the server and the client side: Rust's `Result`,
    `Option`, HTTP status codes and the two HTTP verbs the library uses. */
module Http {

  /** Rust's `std::result::Result`. */
  datatype Result<+T, +E> = Ok(value: T) | Err(error: E)

  datatype Option<+T> = None | Some(value: T)

  /** `reqwest::StatusCode` (the same type as `http::StatusCode`): a
      three-digit code, 100 to 999. */
  type StatusCode = c: int | 100 <= c <= 999 witness 200

  const StatusOk: StatusCode := 200
  const StatusCreated: StatusCode := 201
  const StatusAccepted: StatusCode := 202
  const StatusNotFound: StatusCode := 404
  const StatusInternalServerError: StatusCode := 500

  /** The verb of a request on the wire: what reqwest's `Client::get` and
      `Client::post` send, and the verb under which axum's `get`/`post`
      method routers register a handler (axum's `get` also answers HEAD,
      which is not modelled). */
  datatype Verb = GET | POST
}
