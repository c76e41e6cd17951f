/** The request-decoding middlewares: each reads one accessor of a
    `StatusOpen` connection, hands it to the caller's decoder, and leaves the
    connection as it is. */
module Decoders {
  import opened Either
  import opened Values
  import opened Connections
  import opened Middlewares

  /** `decodeParam`: decode `params[name]`; when the params are not an object
      the decoder gets `undefined`. */
  function DecodeParam<E, A>(name: string, f: Unknown -> Either<E, A>): Middleware<StatusOpenConnection, StatusOpenConnection, E, A> {
    FromConnection((c: StatusOpenConnection) =>
      var params := GetParams(c);
      f(if IsUnknownRecord(params) then Property(params, name) else Undefined))
  }

  /** `decodeParams`: decode the whole params value. */
  function DecodeParams<E, A>(f: Unknown -> Either<E, A>): Middleware<StatusOpenConnection, StatusOpenConnection, E, A> {
    FromConnection((c: StatusOpenConnection) => f(GetParams(c)))
  }

  /** `decodeQuery`: decode the query value. */
  function DecodeQuery<E, A>(f: Unknown -> Either<E, A>): Middleware<StatusOpenConnection, StatusOpenConnection, E, A> {
    FromConnection((c: StatusOpenConnection) => f(GetQuery(c)))
  }

  /** `decodeBody`: decode the request body. */
  function DecodeBody<E, A>(f: Unknown -> Either<E, A>): Middleware<StatusOpenConnection, StatusOpenConnection, E, A> {
    FromConnection((c: StatusOpenConnection) => f(GetBody(c)))
  }

  /** `decodeMethod`: decode the request method. */
  function DecodeMethod<E, A>(f: string -> Either<E, A>): Middleware<StatusOpenConnection, StatusOpenConnection, E, A> {
    FromConnection((c: StatusOpenConnection) => f(GetMethod(c)))
  }

  /** `decodeHeader`: decode the request header `name`. */
  function DecodeHeader<E, A>(name: string, f: Unknown -> Either<E, A>): Middleware<StatusOpenConnection, StatusOpenConnection, E, A> {
    FromConnection((c: StatusOpenConnection) => f(GetHeader(c, name)))
  }

  /** A present parameter is decoded as it is; a missing one, and any
      parameter of params that are not an object, is decoded as `undefined`.
      The connection is left as it is. */
  lemma DecodeParamReads<E, A>(name: string, f: Unknown -> Either<E, A>, c: StatusOpenConnection)
    ensures c.request.params.Object? && name in c.request.params.properties ==>
      EvalMiddleware(DecodeParam(name, f), c) == f(c.request.params.properties[name])
    ensures !(c.request.params.Object? && name in c.request.params.properties) ==>
      EvalMiddleware(DecodeParam(name, f), c) == f(Undefined)
    ensures DecodeParam(name, f)(c).Right? ==> ExecMiddleware(DecodeParam(name, f), c) == Right(c)
  {
    var params := c.request.params;
    var input := if params.Object? && name in params.properties then params.properties[name] else Undefined;
    assert DecodeParam(name, f)(c) == MapEither(f(input), (a: A) => (a, c));
    match f(input)
    case Left(_) =>
    case Right(_) =>
  }

  /** `decodeParams` decodes the params value and keeps the connection. */
  lemma DecodeParamsReads<E, A>(f: Unknown -> Either<E, A>, c: StatusOpenConnection)
    ensures EvalMiddleware(DecodeParams(f), c) == f(c.request.params)
    ensures DecodeParams(f)(c).Right? ==> ExecMiddleware(DecodeParams(f), c) == Right(c)
  {
    assert DecodeParams(f)(c) == MapEither(f(GetParams(c)), (a: A) => (a, c));
    ReadIsInput(DecodeParams(f), f(GetParams(c)), c);
  }

  /** `decodeQuery` decodes the query value and keeps the connection. */
  lemma DecodeQueryReads<E, A>(f: Unknown -> Either<E, A>, c: StatusOpenConnection)
    ensures EvalMiddleware(DecodeQuery(f), c) == f(c.request.query)
    ensures DecodeQuery(f)(c).Right? ==> ExecMiddleware(DecodeQuery(f), c) == Right(c)
  {
    assert DecodeQuery(f)(c) == MapEither(f(GetQuery(c)), (a: A) => (a, c));
    ReadIsInput(DecodeQuery(f), f(GetQuery(c)), c);
  }

  /** `decodeBody` decodes the request body and keeps the connection. */
  lemma DecodeBodyReads<E, A>(f: Unknown -> Either<E, A>, c: StatusOpenConnection)
    ensures EvalMiddleware(DecodeBody(f), c) == f(c.request.body)
    ensures DecodeBody(f)(c).Right? ==> ExecMiddleware(DecodeBody(f), c) == Right(c)
  {
    assert DecodeBody(f)(c) == MapEither(f(GetBody(c)), (a: A) => (a, c));
    ReadIsInput(DecodeBody(f), f(GetBody(c)), c);
  }

  /** `decodeMethod` decodes the request method and keeps the connection. */
  lemma DecodeMethodReads<E, A>(f: string -> Either<E, A>, c: StatusOpenConnection)
    ensures EvalMiddleware(DecodeMethod(f), c) == f(c.request.httpMethod)
    ensures DecodeMethod(f)(c).Right? ==> ExecMiddleware(DecodeMethod(f), c) == Right(c)
  {
    assert DecodeMethod(f)(c) == MapEither(f(GetMethod(c)), (a: A) => (a, c));
    ReadIsInput(DecodeMethod(f), f(GetMethod(c)), c);
  }

  /** `decodeHeader` decodes the named request header, `undefined` when it is
      absent, and keeps the connection. */
  lemma DecodeHeaderReads<E, A>(name: string, f: Unknown -> Either<E, A>, c: StatusOpenConnection)
    ensures name in c.request.headers ==> EvalMiddleware(DecodeHeader(name, f), c) == f(c.request.headers[name])
    ensures name !in c.request.headers ==> EvalMiddleware(DecodeHeader(name, f), c) == f(Undefined)
    ensures DecodeHeader(name, f)(c).Right? ==> ExecMiddleware(DecodeHeader(name, f), c) == Right(c)
  {
    assert DecodeHeader(name, f)(c) == MapEither(f(GetHeader(c, name)), (a: A) => (a, c));
    ReadIsInput(DecodeHeader(name, f), f(GetHeader(c, name)), c);
  }

  /** A read that yields `input` on `c` evaluates to `input` and keeps `c`. */
  lemma ReadIsInput<E, A>(m: Middleware<StatusOpenConnection, StatusOpenConnection, E, A>, input: Either<E, A>, c: StatusOpenConnection)
    requires input.Left? ==> m(c) == Left(input.left)
    requires input.Right? ==> m(c) == Right((input.right, c))
    ensures EvalMiddleware(m, c) == input
    ensures m(c).Right? ==> ExecMiddleware(m, c) == Right(c)
  {
  }
}
