/** The two fp-ts value wrappers the core relies on: `Option` and `Either`.
    `Either` is the synchronous stand-in for the result of a `TaskEither`. */
module Either {

  datatype Option<+T> = None | Some(value: T)

  /** fp-ts `Either`: a failure on the left, a success on the right. */
  datatype Either<+E, +A> = Left(left: E) | Right(right: A)

  /** fp-ts `Either.map` (imported by the core as `mapEither`). */
  function MapEither<E, A, B>(ma: Either<E, A>, f: A -> B): Either<E, B> {
    match ma
    case Left(e) => Left(e)
    case Right(a) => Right(f(a))
  }
}
