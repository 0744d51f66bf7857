/** Failure-carrying wrappers shared by the whole model: an optional value, the outcome of a
    Python call that may raise, and a side effect that may raise. */
module Common {

  datatype Option<+T> = None | Some(value: T) {
    function GetOr(default: T): T {
      match this
      case Some(v) => v
      case None => default
    }
  }

  /** The result of a call that either returns a value or raises an exception with a message. */
  datatype Try<+T> = Ok(value: T) | Raised(message: string)

  /** A side effect on the file system (mkdir, write) that either completes or raises. */
  datatype Effect = Done | Failed(message: string)

  /** The file system as the synchroniser sees it: reading a file, creating a directory (with its
      parents, succeeding when it exists), and writing a file's whole text. */
  datatype Disk = Disk(
    read: string -> Try<string>,
    makeDir: string -> Effect,
    write: (string, string) -> Effect)
}
