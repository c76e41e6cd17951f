/** The `TaskEither` operations the core composes with `pipe`, taken
    synchronously: a `TaskEither<E, A>` is modelled by the `Either<E, A>` it
    eventually yields. */
module TaskEither {
  import opened Either

  /** `TE.chain`: continue with `f` on success, pass a failure through. */
  function Chain<E, A, B>(ma: Either<E, A>, f: A -> Either<E, B>): Either<E, B> {
    match ma
    case Left(e) => Left(e)
    case Right(a) => f(a)
  }

  /** `TE.map`: transform the success value. */
  function Map<E, A, B>(ma: Either<E, A>, f: A -> B): Either<E, B> {
    match ma
    case Left(e) => Left(e)
    case Right(a) => Right(f(a))
  }

  /** `TE.mapLeft`: transform the failure value. */
  function MapLeft<E, M, A>(ma: Either<E, A>, f: E -> M): Either<M, A> {
    match ma
    case Left(e) => Left(f(e))
    case Right(a) => Right(a)
  }

  /** `TE.bimap`: transform the failure with `f` and the success with `g`. */
  function Bimap<E, M, A, B>(ma: Either<E, A>, f: E -> M, g: A -> B): Either<M, B> {
    match ma
    case Left(e) => Left(f(e))
    case Right(a) => Right(g(a))
  }

  /** `TE.orElse`: recover from a failure with `f`, keep a success. */
  function OrElse<E, M, A>(ma: Either<E, A>, f: E -> Either<M, A>): Either<M, A> {
    match ma
    case Left(e) => f(e)
    case Right(a) => Right(a)
  }

  /** `TE.alt`: on failure, use the lazily produced alternative. */
  function Alt<E, A>(ma: Either<E, A>, that: () -> Either<E, A>): Either<E, A> {
    match ma
    case Left(_) => that()
    case Right(a) => Right(a)
  }
}
