/** Shared vocabulary: optional values, identifiers, the authenticated user and
    the HTTP outcome of a route handler. */
module Common {

  datatype Option<+T> = None | Some(value: T)

  /** A document identifier (a Mongo ObjectId in the system). */
  type Id = nat

  /** A point in time, in milliseconds. */
  type Time = int

  /** The length of the "recent check-in" window: seven days in milliseconds. */
  const WeekMillis: int := 7 * 24 * 60 * 60 * 1000

  /** The role stored on a user; a role outside the three known ones is kept as its name. */
  datatype Role = Admin | Employee | Client | OtherRole(name: string)

  /** The identity the authentication layer hands to a handler. */
  datatype AuthUser = AuthUser(id: Id, role: Role)

  /** Where a store failure strikes during an ingestion request. */
  datatype Fault = NoFault | CreateFails | RecomputeFails

  /** The outcome of a route handler: a JSON body, or one of the error statuses it returns. */
  datatype Response<+T> = Ok(body: T) | Unauthorized | Forbidden | ServerError
  {
    function Code(): (c: int)
      ensures Ok? <==> c == 200
      ensures Unauthorized? <==> c == 401
      ensures Forbidden? <==> c == 403
      ensures ServerError? <==> c == 500
    {
      match this
      case Ok(_) => 200
      case Unauthorized => 401
      case Forbidden => 403
      case ServerError => 500
    }
  }
}
