/** Values that stand in for the HTTP error responses of the three services. */
module Outcomes {

  /** The kinds of failure a handler reports to its caller. */
  datatype Error =
    | NotFound         // HTTP 404: the id named in the request is absent
    | RoomUnavailable  // HTTP 400 from book_room: no room with that id is available
    | DuplicateNumber  // the rooms table's unique constraint on `number` refused an insert

  datatype Option<T> = None | Some(value: T)

  /** The outcome of a handler: its response value, or the error it raises. */
  datatype Result<T> = Ok(value: T) | Err(error: Error)
}
