/** Optional values and call outcomes shared by every module. */
module Wrappers {

  datatype Option<+T> = None | Some(value: T)

  /** The errors the services return, one constructor per distinct failure. */
  datatype Error =
    | StoreDown          // a Postgres, Redis or payment-provider call failed
    | NotFound
    | NoAvailableSpot
    | SpotUnavailable
    | InsertFailed       // the INSERT broke a constraint or the database failed
    | NotOwner
    | WrongStatus
    | ReservationExpired
    | UnsupportedMethod
    | InvalidSignature
    | NotSettled

  datatype Result<+T> = Ok(value: T) | Err(error: Error)
}
