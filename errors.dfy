/** Optional values, results and the errors the user module can raise. */
module Errors {

  datatype Option<+T> = None | Some(value: T) {
    /** The value, or `default` when absent. */
    function GetOr(default: T): T {
      match this
      case Some(v) => v
      case None => default
    }
  }

  /** The exceptions raised by the user module, or by the lookups it performs. */
  datatype Error =
    | DoesNotExist(name: string)            // the permission lookup found no row
    | MultipleObjectsReturned(name: string) // the permission lookup found several rows
    | EmailRequired                         // ValueError: no email given
    | StaffRequired                         // ValueError: a superuser's is_staff is not True
    | SuperuserRequired                     // ValueError: a superuser's is_superuser is not True

  /** A value, or the exception raised instead of producing it. */
  datatype Result<+T> = Success(value: T) | Failure(error: Error)

  /** Completion of a step that produces no value, or the exception it raised. */
  datatype Outcome = Pass | Fail(error: Error)
}
