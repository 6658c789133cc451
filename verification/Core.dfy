/** Vocabulary shared by every module: options, results, the symbolic hash and the sandbox states. */
module Core {

  datatype Option<+T> = None | Some(value: T)

  datatype Result<+T, +E> = Ok(value: T) | Err(error: E)

  /** SHA-256 seen as a free constructor: two digests are equal exactly when their preimages are. */
  datatype Digest<T> = Sha256(of: T)

  datatype SandboxState =
    | Creating | Running | Pausing | Paused | Resuming | Deleting | Deleted | Failed

  predicate CanTransition(current: SandboxState, next: SandboxState) {
    match current
    case Creating => next in {Running, Failed, Deleting}
    case Running => next in {Pausing, Deleting, Failed}
    case Pausing => next in {Paused, Failed, Deleting}
    case Paused => next in {Resuming, Deleting, Failed}
    case Resuming => next in {Running, Failed, Deleting}
    case Failed => next == Deleting
    case Deleting => next in {Deleted, Failed}
    case Deleted => false
  }

  function Min(a: int, b: int): int { if a <= b then a else b }
}
