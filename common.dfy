/** Values shared by the three services: optional values, results carrying the
    HTTP error kinds the services raise, roles and the authenticated actor. */
module Common {

  datatype Option<+T> = None | Some(value: T) {
    function GetOr(default: T): T {
      match this
      case Some(v) => v
      case None => default
    }
  }

  /** The Nest exceptions the services throw, plus the TypeError that surfaces
      as an internal server error. */
  datatype ErrorKind = NotFound | Forbidden | BadRequest | Conflict | InternalError

  datatype Result<+T> = Ok(value: T) | Err(error: ErrorKind)

  /** Outcome of an operation that returns nothing on success. */
  datatype Outcome = Done | Fail(error: ErrorKind)

  datatype Role = Admin | Editor | Viewer

  type UserId = nat

  /** The authenticated user attached to a request: only its id and role matter. */
  datatype Actor = Actor(id: UserId, role: Role)

  /** A wall-clock reading, handed in by the caller instead of `new Date()`. */
  type Time = nat

  /** An opaque JSON value (document metadata, process configuration). */
  type Json = string
}
