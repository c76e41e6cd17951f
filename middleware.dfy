/** The indexed middleware computation and its combinators. A middleware takes
    a connection in phase `I` and yields either a failure `E` or a value `A`
    with a connection in phase `O`. The phase indices `I` and `O` are the
    phase-indexed connection types, so the type of a middleware states the
    phase transition it performs. */
module Middlewares {
  import opened Either
  import opened Values
  import TE = TaskEither

  type Middleware<-I, O, E, A> = I -> Either<E, (A, O)>

  // ---------------------------------------------------------------------------
  // Lifting and reading

  /** `gets`: read a value off the connection, which stays as it is. */
  function Gets<I, E, A>(f: I -> A): Middleware<I, I, E, A> {
    c => Right((f(c), c))
  }

  /** `fromConnection`: a fallible read of the connection. */
  function FromConnection<I, E, A>(f: I -> Either<E, A>): Middleware<I, I, E, A> {
    c => MapEither(f(c), (a: A) => (a, c))
  }

  /** `modifyConnection`: move the connection to phase `O` with `f`. */
  function ModifyConnection<I, O, E>(f: I -> O): Middleware<I, O, E, ()> {
    c => Right(((), f(c)))
  }

  /** `iof` (and `right`, `of`, which are `iof`): succeed with `a` on the
      connection as given. */
  function Iof<I, E, A>(a: A): Middleware<I, I, E, A> {
    c => Right((a, c))
  }

  /** `fromTaskEither`: lift a result; the connection stays as it is. */
  function FromTaskEither<I, E, A>(fa: Either<E, A>): Middleware<I, I, E, A> {
    c => TE.Map(fa, (a: A) => (a, c))
  }

  /** `left` (and `throwError`): fail with `e`. */
  function LiftLeft<I, E, A>(e: E): Middleware<I, I, E, A> {
    FromTaskEither(Left(e))
  }

  /** `fromEither`, as derived for a throwing monad: a left is thrown, a right
      is returned. */
  function FromEither<I, E, A>(ma: Either<E, A>): Middleware<I, I, E, A> {
    match ma
    case Left(e) => LiftLeft(e)
    case Right(a) => Iof(a)
  }

  /** `rightTask` (and `fromTask`): the task's value is given. */
  function RightTask<I, E, A>(a: A): Middleware<I, I, E, A> {
    FromTaskEither(Right(a))
  }

  /** `leftTask`: the task's failure value is given. */
  function LeftTask<I, E, A>(e: E): Middleware<I, I, E, A> {
    FromTaskEither(Left(e))
  }

  /** `rightIO` (and `fromIO`): the effect's value is given. */
  function RightIO<I, E, A>(a: A): Middleware<I, I, E, A> {
    FromTaskEither(Right(a))
  }

  /** `leftIO`: the effect's failure value is given. */
  function LeftIO<I, E, A>(e: E): Middleware<I, I, E, A> {
    FromTaskEither(Left(e))
  }

  /** `fromIOEither`: the effect's result is given. */
  function FromIOEither<I, E, A>(fa: Either<E, A>): Middleware<I, I, E, A> {
    FromTaskEither(fa)
  }

  /** `tryCatch`: `outcome` is how the promise settled (a rejection carries its
      reason on the left); a rejection reason becomes `onRejected(reason)`. */
  function TryCatch<I, E, A>(outcome: Either<Unknown, A>, onRejected: Unknown -> E): Middleware<I, I, E, A> {
    FromTaskEither(TE.MapLeft(outcome, onRejected))
  }

  // ---------------------------------------------------------------------------
  // Sequencing, running and recovering

  /** `ichain`: run `ma`, then `f` of its value on its output connection. */
  function IChain<I, O, Z, E, A, B>(f: A -> Middleware<O, Z, E, B>, ma: Middleware<I, O, E, A>): Middleware<I, Z, E, B> {
    ci => TE.Chain(ma(ci), (p: (A, O)) => f(p.0)(p.1))
  }

  /** `evalMiddleware`: run and keep the value. */
  function EvalMiddleware<I, O, E, A>(ma: Middleware<I, O, E, A>, c: I): Either<E, A> {
    TE.Map(ma(c), (p: (A, O)) => p.0)
  }

  /** `execMiddleware`: run and keep the output connection. */
  function ExecMiddleware<I, O, E, A>(ma: Middleware<I, O, E, A>, c: I): Either<E, O> {
    TE.Map(ma(c), (p: (A, O)) => p.1)
  }

  /** `orElse`: on failure, run `f` of the error on the input connection. */
  function OrElse<I, O, E, M, A>(f: E -> Middleware<I, O, M, A>, ma: Middleware<I, O, E, A>): Middleware<I, O, M, A> {
    c => TE.OrElse(ma(c), (e: E) => f(e)(c))
  }

  // ---------------------------------------------------------------------------
  // The `middleware` instance (monad, alternative, bifunctor); its type class
  // fixes both indices to one phase `R`.

  function Map<R, E, A, B>(ma: Middleware<R, R, E, A>, f: A -> B): Middleware<R, R, E, B> {
    ci => TE.Map(ma(ci), (p: (A, R)) => (f(p.0), p.1))
  }

  function Chain<R, E, A, B>(ma: Middleware<R, R, E, A>, f: A -> Middleware<R, R, E, B>): Middleware<R, R, E, B> {
    IChain(f, ma)
  }

  function Ap<R, E, A, B>(mab: Middleware<R, R, E, A -> B>, ma: Middleware<R, R, E, A>): Middleware<R, R, E, B> {
    Chain(mab, (f: A -> B) => Map(ma, (a: A) => f(a)))
  }

  function Alt<R, E, A>(fx: Middleware<R, R, E, A>, f: () -> Middleware<R, R, E, A>): Middleware<R, R, E, A> {
    c => TE.Alt(fx(c), () => f()(c))
  }

  function Bimap<R, E, M, A, B>(fea: Middleware<R, R, E, A>, f: E -> M, g: A -> B): Middleware<R, R, M, B> {
    c => TE.Bimap(fea(c), f, (p: (A, R)) => (g(p.0), p.1))
  }

  function MapLeft<R, E, M, A>(fea: Middleware<R, R, E, A>, f: E -> M): Middleware<R, R, M, A> {
    c => TE.MapLeft(fea(c), f)
  }

  // ---------------------------------------------------------------------------
  // Laws

  /** `ichain` short-circuits: a failure of `ma` is the result, whatever `f`
      is; a success continues with `f` on the output connection. */
  lemma IChainSequences<I, O, Z, E, A, B>(f: A -> Middleware<O, Z, E, B>, ma: Middleware<I, O, E, A>, c: I)
    ensures ma(c).Left? ==> IChain(f, ma)(c) == Left(ma(c).left)
    ensures ma(c).Right? ==> IChain(f, ma)(c) == f(ma(c).right.0)(ma(c).right.1)
  {
  }

  /** Left identity: `iof(a)` then `f` is `f(a)`. */
  lemma IChainLeftIdentity<I, O, E, A, B>(a: A, f: A -> Middleware<I, O, E, B>, c: I)
    ensures IChain(f, Iof(a))(c) == f(a)(c)
  {
  }

  /** Right identity: `m` then `iof` is `m`. */
  lemma IChainRightIdentity<I, O, E, A>(m: Middleware<I, O, E, A>, c: I)
    ensures IChain((a: A) => Iof(a), m)(c) == m(c)
  {
    match m(c)
    case Left(_) =>
    case Right((a, co)) => assert Iof<O, E, A>(a)(co) == Right((a, co));
  }

  /** Associativity of `ichain`, across three phase transitions. */
  lemma IChainAssociative<I, O, Z, W, E, A, B, C>(
    m: Middleware<I, O, E, A>, f: A -> Middleware<O, Z, E, B>, g: B -> Middleware<Z, W, E, C>, c: I)
    ensures IChain(g, IChain(f, m))(c) == IChain((a: A) => IChain(g, f(a)), m)(c)
  {
    match m(c)
    case Left(_) =>
    case Right((a, co)) =>
      assert IChain(f, m)(c) == f(a)(co);
      assert IChain((a: A) => IChain(g, f(a)), m)(c) == IChain(g, f(a))(co);
  }

  /** The monad laws of the `middleware` instance, whose `chain` is `ichain`
      at one phase and whose `of` is `iof`. */
  lemma ChainMonadLaws<R, E, A, B, C>(a: A, m: Middleware<R, R, E, A>, f: A -> Middleware<R, R, E, B>, g: B -> Middleware<R, R, E, C>, c: R)
    ensures Chain(Iof(a), f)(c) == f(a)(c)
    ensures Chain(m, (x: A) => Iof(x))(c) == m(c)
    ensures Chain(Chain(m, f), g)(c) == Chain(m, (x: A) => Chain(f(x), g))(c)
  {
    IChainLeftIdentity(a, f, c);
    IChainRightIdentity(m, c);
    match m(c)
    case Left(_) =>
    case Right((x, co)) =>
      assert Chain(m, f)(c) == f(x)(co);
      assert Chain(m, (x: A) => Chain(f(x), g))(c) == Chain(f(x), g)(co);
  }

  /** `evalMiddleware` and `execMiddleware` are the two halves of a success
      and both carry the same failure. */
  lemma EvalExecProject<I, O, E, A>(ma: Middleware<I, O, E, A>, c: I)
    ensures ma(c).Right? <==> EvalMiddleware(ma, c).Right?
    ensures ma(c).Right? <==> ExecMiddleware(ma, c).Right?
    ensures ma(c).Right? ==> ma(c) == Right((EvalMiddleware(ma, c).right, ExecMiddleware(ma, c).right))
    ensures ma(c).Left? ==> EvalMiddleware(ma, c) == Left(ma(c).left) && ExecMiddleware(ma, c) == Left(ma(c).left)
  {
  }

  /** `gets` and `fromConnection` read the connection and leave it as it is. */
  lemma ReadersKeepConnection<I, E, A>(g: I -> A, f: I -> Either<E, A>, c: I)
    ensures EvalMiddleware(Gets<I, E, A>(g), c) == Right(g(c))
    ensures ExecMiddleware(Gets<I, E, A>(g), c) == Right(c)
    ensures EvalMiddleware(FromConnection(f), c) == f(c)
    ensures FromConnection(f)(c).Right? ==> ExecMiddleware(FromConnection(f), c) == Right(c)
  {
  }

  /** `modifyConnection(f)` always succeeds with unit and `f(c)`. */
  lemma ModifyConnectionSucceeds<I, O, E>(f: I -> O, c: I)
    ensures ModifyConnection<I, O, E>(f)(c).Right?
    ensures EvalMiddleware(ModifyConnection<I, O, E>(f), c) == Right(())
    ensures ExecMiddleware(ModifyConnection<I, O, E>(f), c) == Right(f(c))
  {
  }

  /** Every lift returns its given result unchanged and keeps the connection. */
  lemma LiftsKeepConnection<I, E, A>(a: A, e: E, fa: Either<E, A>, outcome: Either<Unknown, A>, onRejected: Unknown -> E, c: I)
    ensures Iof<I, E, A>(a)(c) == Right((a, c))
    ensures LiftLeft<I, E, A>(e)(c) == Left(e)
    ensures EvalMiddleware(FromTaskEither<I, E, A>(fa), c) == fa
    ensures FromTaskEither<I, E, A>(fa)(c).Right? ==> ExecMiddleware(FromTaskEither<I, E, A>(fa), c) == Right(c)
    ensures FromEither<I, E, A>(fa)(c) == FromTaskEither<I, E, A>(fa)(c)
    ensures FromIOEither<I, E, A>(fa)(c) == FromTaskEither<I, E, A>(fa)(c)
    ensures RightTask<I, E, A>(a)(c) == Right((a, c)) && RightIO<I, E, A>(a)(c) == Right((a, c))
    ensures LeftTask<I, E, A>(e)(c) == Left(e) && LeftIO<I, E, A>(e)(c) == Left(e)
    ensures outcome.Left? ==> TryCatch<I, E, A>(outcome, onRejected)(c) == Left(onRejected(outcome.left))
    ensures outcome.Right? ==> TryCatch<I, E, A>(outcome, onRejected)(c) == Right((outcome.right, c))
  {
  }

  /** `orElse` runs the handler on the original input connection, and only
      when `ma` fails. */
  lemma OrElseRecovers<I, O, E, M, A>(f: E -> Middleware<I, O, M, A>, ma: Middleware<I, O, E, A>, c: I)
    ensures ma(c).Right? ==> OrElse(f, ma)(c) == Right(ma(c).right)
    ensures ma(c).Left? ==> OrElse(f, ma)(c) == f(ma(c).left)(c)
  {
  }

  /** `alt` runs the fallback on the original input connection, and only when
      `fx` fails. */
  lemma AltFallsBack<R, E, A>(fx: Middleware<R, R, E, A>, f: () -> Middleware<R, R, E, A>, c: R)
    ensures fx(c).Right? ==> Alt(fx, f)(c) == fx(c)
    ensures fx(c).Left? ==> Alt(fx, f)(c) == f()(c)
  {
  }

  /** `map` changes the value only: the output connection and any failure are
      those of `ma`. */
  lemma MapKeepsConnection<R, E, A, B>(ma: Middleware<R, R, E, A>, f: A -> B, c: R)
    ensures EvalMiddleware(Map(ma, f), c) == TE.Map(EvalMiddleware(ma, c), f)
    ensures ExecMiddleware(Map(ma, f), c) == ExecMiddleware(ma, c)
  {
  }

  /** The functor laws for `map`. */
  lemma MapFunctor<R, E, A, B, C>(ma: Middleware<R, R, E, A>, f: A -> B, g: B -> C, c: R)
    ensures Map(ma, (a: A) => a)(c) == ma(c)
    ensures Map(Map(ma, f), g)(c) == Map(ma, (a: A) => g(f(a)))(c)
  {
  }

  /** `mapLeft` changes the failure only and lets a success through. */
  lemma MapLeftKeepsSuccess<R, E, M, A>(fea: Middleware<R, R, E, A>, f: E -> M, c: R)
    ensures fea(c).Right? ==> MapLeft(fea, f)(c) == Right(fea(c).right)
    ensures fea(c).Left? ==> MapLeft(fea, f)(c) == Left(f(fea(c).left))
  {
  }

  /** `bimap` is `map` on the value followed by `mapLeft` on the failure, so
      it leaves the output connection as `fea` leaves it. */
  lemma BimapIsMapThenMapLeft<R, E, M, A, B>(fea: Middleware<R, R, E, A>, f: E -> M, g: A -> B, c: R)
    ensures Bimap(fea, f, g)(c) == MapLeft(Map(fea, g), f)(c)
    ensures fea(c).Right? <==> Bimap(fea, f, g)(c).Right?
    ensures fea(c).Right? ==> ExecMiddleware(Bimap(fea, f, g), c).right == ExecMiddleware(fea, c).right
  {
  }

  /** `ap` runs the function's middleware first, then the argument's on the
      connection it leaves; applying a pure function is `map`. */
  lemma ApSequences<R, E, A, B>(mab: Middleware<R, R, E, A -> B>, ma: Middleware<R, R, E, A>, h: A -> B, c: R)
    ensures mab(c).Left? ==> Ap(mab, ma)(c) == Left(mab(c).left)
    ensures mab(c).Right? ==> Ap(mab, ma)(c) == Map(ma, mab(c).right.0)(mab(c).right.1)
    ensures Ap(Iof(h), ma)(c) == Map(ma, h)(c)
  {
  }
}
