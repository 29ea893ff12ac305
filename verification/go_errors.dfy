/**
 * Go's error values as the core uses them: `nil`, sentinel errors compared
 * by identity, and chains built by `fmt.Errorf("...: %w", err)`.
 * `errors.Is` walks such a chain.
 */
module GoErrors {

  /** A value that may be absent (a nil pointer, a missing map entry). */
  datatype Option<T> = None | Some(value: T)

  /** The sentinel errors the core compares against with `errors.Is`. */
  datatype Sentinel =
    | PgxErrNoRows          // pgx.ErrNoRows
    | SqlErrNoRows          // database/sql.ErrNoRows
    | ErrInvalidCredentials // services.ErrInvalidCredentials
    | ErrUserNotFound       // services.ErrUserNotFound
    | ErrNotSubscription    // services.ErrNotSubscription

  /** An error value: a sentinel, any other leaf error, or a `%w` wrap. */
  datatype Error =
    | Base(sentinel: Sentinel)
    | Other(message: string)
    | Wrap(context: string, cause: Error)

  /** `errors.Is(err, target)`: some error along the unwrap chain is `target`. */
  predicate Is(err: Error, target: Sentinel)
  {
    match err
    case Base(s) => s == target
    case Other(_) => false
    case Wrap(_, cause) => Is(cause, target)
  }

  /** The innermost error of a chain. */
  function Root(err: Error): (r: Error)
    ensures !r.Wrap?
  {
    match err
    case Wrap(_, cause) => Root(cause)
    case _ => err
  }

  /** `errors.Is` only looks at the root of the chain, however deep the wrapping. */
  lemma {:induction false} IsDependsOnlyOnRoot(err: Error, target: Sentinel)
    ensures Is(err, target) <==> Root(err) == Base(target)
  {
    match err
    case Wrap(_, cause) => IsDependsOnlyOnRoot(cause, target);
    case _ =>
  }

  /** A Go result pair `(T, error)` where exactly one side is meaningful. */
  datatype Result<T> = Ok(value: T) | Err(error: Error)
}
