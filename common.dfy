/** Shared vocabulary of the listing backend: document identifiers, the
    failure-compatible wrappers the services return, and the user-facing
    failure messages the services raise. */
module Common {

  /** A document identifier (a store ObjectId): opaque and comparable. */
  type Id = nat

  datatype Option<+T> = None | Some(value: T)

  /** The messages the services attach to the exceptions they throw. */
  datatype Message =
    | NoDataFound
    | CreateFailed
    | UpdateFailed
    | RemoveFailed
    | NoMemberNick
    | BlockedUser
    | WrongPassword
    | NotAllowedRequest
    | SomethingWentWrong

  /** A service call either resolves with a value or throws with a message. */
  datatype Result<+T> = Ok(value: T) | Err(message: Message)

  /** A field an update may supply: the supplied value, else the current one. */
  function Pick<T>(given: Option<T>, current: T): T
  {
    if given.Some? then given.value else current
  }

  /** Sort direction of a list inquiry. */
  datatype Direction = Asc | Desc
}
