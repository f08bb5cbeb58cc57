// Shared result types.  `Outcome` separates the two ways in which a Rust operation can fail:
// returning an error, and panicking (a failed `expect`, or an arithmetic underflow).
module Prelude {

  datatype Option<+T> = None | Some(value: T)

  datatype Error =
    | ForeignHandle
    | StaleHandle
    | CapacityExhausted
    | WrongParent
    | Deactivated
    | StillOwnsChildren
    | NotEditing
    | AlreadyEditing
    | DocumentDestroyed
    | Application          // the error came from the application delegate
    | InvalidArgument
    | InvalidState
    | InvalidThread
    | Unsupported
    | Poisoned

  datatype Result<+T> = Ok(value: T) | Err(error: Error)

  datatype Outcome<+T> = Done(value: T) | Failed(error: Error) | Panicked

  // The elements that are to be kept, in order.
  function Filter<T>(s: seq<T>, keep: T -> bool): seq<T> {
    if s == [] then []
    else
      var last := s[|s| - 1];
      Filter(s[..|s| - 1], keep) + if keep(last) then [last] else []
  }

  const USIZE_MAX: nat := 0xFFFF_FFFF_FFFF_FFFF
}
