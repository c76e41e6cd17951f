/** The response-writing middlewares: each is `modifyConnection` over one
    mutator, or a chain of such steps, and its type states its phase
    transition. */
module Responses {
  import opened Either
  import opened Values
  import opened Connections
  import opened Middlewares
  import TE = TaskEither

  /** `status`: write the status line. */
  function Status<E>(status: StatusCode): Middleware<StatusOpenConnection, HeadersOpenConnection, E, ()> {
    ModifyConnection((c: StatusOpenConnection) => SetStatus(c, status))
  }

  /** `header`: write one header. */
  function Header<E>(name: string, value: string): Middleware<HeadersOpenConnection, HeadersOpenConnection, E, ()> {
    ModifyConnection((c: HeadersOpenConnection) => SetHeader(c, name, value))
  }

  /** `contentType`: the `Content-Type` header. */
  function ContentType<E>(mediaType: MediaType): Middleware<HeadersOpenConnection, HeadersOpenConnection, E, ()> {
    Header("Content-Type", mediaType)
  }

  /** `cookie`: set cookie `name` to `value`. */
  function Cookie<E>(name: string, value: string, options: CookieOptions): Middleware<HeadersOpenConnection, HeadersOpenConnection, E, ()> {
    ModifyConnection((c: HeadersOpenConnection) => SetCookie(c, name, value, options))
  }

  /** `clearCookie`: clear cookie `name`. */
  function ClearCookie<E>(name: string, options: CookieOptions): Middleware<HeadersOpenConnection, HeadersOpenConnection, E, ()> {
    ModifyConnection((c: HeadersOpenConnection) => Connections.ClearCookie(c, name, options))
  }

  /** `closeHeaders`: `iof(undefined)` read at `HeadersOpen` to `BodyOpen`.
      No mutator is called; the index cast becomes a change of the phase tag. */
  function CloseHeaders<E>(): Middleware<HeadersOpenConnection, BodyOpenConnection, E, ()> {
    (c: HeadersOpenConnection) => Right(((), c.(phase := BodyOpen)))
  }

  /** `send`: write `body` and end the response. */
  function Send<E>(body: string): Middleware<BodyOpenConnection, ResponseEndedConnection, E, ()> {
    ModifyConnection((c: BodyOpenConnection) => SetBody(c, String(body)))
  }

  /** `end`: end the response without a body. */
  function End<E>(): Middleware<BodyOpenConnection, ResponseEndedConnection, E, ()> {
    ModifyConnection((c: BodyOpenConnection) => EndResponse(c))
  }

  /** fp-ts `stringifyJSON`: `serialize` is `JSON.stringify`, with a thrown
      exception on the left; the exception becomes `onError(reason)`. */
  function StringifyJSON<E>(u: Unknown, onError: Unknown -> E, serialize: Unknown -> Either<Unknown, string>): Either<E, string> {
    TE.MapLeft(serialize(u), onError)
  }

  /** `json`: serialize `body`; then the JSON content type, close the
      headers, and send the text. */
  function Json<E>(body: Unknown, onError: Unknown -> E, serialize: Unknown -> Either<Unknown, string>)
    : Middleware<HeadersOpenConnection, ResponseEndedConnection, E, ()>
  {
    IChain(
      (json: string) =>
        IChain((_: ()) => Send<E>(json), IChain((_: ()) => CloseHeaders<E>(), ContentType<E>(ApplicationJSON))),
      FromEither<HeadersOpenConnection, E, string>(StringifyJSON(body, onError, serialize)))
  }

  /** `redirect`: status 302 Found, then the `Location` header. */
  function Redirect<E>(uri: string): Middleware<StatusOpenConnection, HeadersOpenConnection, E, ()> {
    IChain((_: ()) => Header<E>("Location", uri), Status<E>(Found))
  }

  /** The outcome succeeds with unit in phase `phase`, on the same request,
      having made exactly the mutator calls `calls`. */
  predicate Writes<E>(outcome: Either<E, ((), Connection)>, c: Connection, phase: Phase, calls: seq<Action>) {
    && outcome.Right?
    && outcome.right.1.phase == phase
    && outcome.right.1.request == c.request
    && outcome.right.1.actions == c.actions + calls
  }

  lemma StatusWrites<E>(status: StatusCode, c: StatusOpenConnection)
    ensures Writes(Status<E>(status)(c), c, HeadersOpen, [StatusSet(status)])
    ensures Recorded(Status<E>(status)(c).right.1) == Recorded(c).(status := Some(status))
    ensures Coherent(c) ==> Coherent(Status<E>(status)(c).right.1)
  {
  }

  lemma HeaderWrites<E>(name: string, value: string, c: HeadersOpenConnection)
    ensures Writes(Header<E>(name, value)(c), c, HeadersOpen, [HeaderSet(name, value)])
    ensures Recorded(Header<E>(name, value)(c).right.1) == Recorded(c).(headers := Recorded(c).headers + [(name, value)])
    ensures Coherent(c) ==> Coherent(Header<E>(name, value)(c).right.1)
  {
  }

  lemma ContentTypeWrites<E>(mediaType: MediaType, c: HeadersOpenConnection)
    ensures Writes(ContentType<E>(mediaType)(c), c, HeadersOpen, [HeaderSet("Content-Type", mediaType)])
    ensures ContentType<E>(mediaType)(c) == Header<E>("Content-Type", mediaType)(c)
  {
  }

  lemma CookieWrites<E>(name: string, value: string, options: CookieOptions, c: HeadersOpenConnection)
    ensures Writes(Cookie<E>(name, value, options)(c), c, HeadersOpen, [CookieSet(name, value, options)])
    ensures Recorded(Cookie<E>(name, value, options)(c).right.1)
         == Recorded(c).(cookies := Recorded(c).cookies + [CookieSet(name, value, options)])
    ensures Coherent(c) ==> Coherent(Cookie<E>(name, value, options)(c).right.1)
  {
  }

  lemma ClearCookieWrites<E>(name: string, options: CookieOptions, c: HeadersOpenConnection)
    ensures Writes(ClearCookie<E>(name, options)(c), c, HeadersOpen, [CookieCleared(name, options)])
    ensures Recorded(ClearCookie<E>(name, options)(c).right.1)
         == Recorded(c).(cookies := Recorded(c).cookies + [CookieCleared(name, options)])
    ensures Coherent(c) ==> Coherent(ClearCookie<E>(name, options)(c).right.1)
  {
  }

  /** Closing the headers changes the phase and records nothing. */
  lemma CloseHeadersWrites<E>(c: HeadersOpenConnection)
    ensures Writes(CloseHeaders<E>()(c), c, BodyOpen, [])
    ensures Recorded(CloseHeaders<E>()(c).right.1) == Recorded(c)
    ensures Coherent(c) ==> Coherent(CloseHeaders<E>()(c).right.1)
  {
  }

  lemma SendWrites<E>(body: string, c: BodyOpenConnection)
    ensures Writes(Send<E>(body)(c), c, ResponseEnded, [BodySet(String(body))])
    ensures Recorded(Send<E>(body)(c).right.1) == Recorded(c).(body := Some(String(body)), ended := true)
    ensures Coherent(c) ==> Coherent(Send<E>(body)(c).right.1)
  {
  }

  lemma EndWrites<E>(c: BodyOpenConnection)
    ensures Writes(End<E>()(c), c, ResponseEnded, [Ended])
    ensures Recorded(End<E>()(c).right.1) == Recorded(c).(ended := true)
    ensures Coherent(c) ==> Coherent(End<E>()(c).right.1)
  {
  }

  /** `json` fails with `onError(reason)` when serialization fails, before
      any call on the connection; otherwise it writes the JSON content type
      header and then the serialized text as the body, ending the response. */
  lemma JsonWrites<E>(body: Unknown, onError: Unknown -> E, serialize: Unknown -> Either<Unknown, string>, c: HeadersOpenConnection)
    ensures serialize(body).Left? ==> Json(body, onError, serialize)(c) == Left(onError(serialize(body).left))
    ensures serialize(body).Right? ==>
      Writes(Json(body, onError, serialize)(c), c, ResponseEnded,
             [HeaderSet("Content-Type", "application/json"), BodySet(String(serialize(body).right))])
    ensures serialize(body).Right? ==>
      Recorded(Json(body, onError, serialize)(c).right.1)
      == Recorded(c).(headers := Recorded(c).headers + [("Content-Type", "application/json")],
                      body := Some(String(serialize(body).right)), ended := true)
    ensures serialize(body).Right? && Coherent(c) ==> Coherent(Json(body, onError, serialize)(c).right.1)
  {
  }

  /** `redirect` writes status 302 and then the `Location` header. */
  lemma RedirectWrites<E>(uri: string, c: StatusOpenConnection)
    ensures Writes(Redirect<E>(uri)(c), c, HeadersOpen, [StatusSet(302), HeaderSet("Location", uri)])
    ensures Recorded(Redirect<E>(uri)(c).right.1)
         == Recorded(c).(status := Some(302), headers := Recorded(c).headers + [("Location", uri)])
    ensures Coherent(c) ==> Coherent(Redirect<E>(uri)(c).right.1)
  {
    var c1 := SetStatus(c, Found);
    var c2 := SetHeader(c1, "Location", uri);
    assert Status<E>(Found)(c) == Right(((), c1));
    assert Header<E>("Location", uri)(c1) == Right(((), c2));
    assert Redirect<E>(uri)(c) == Right(((), c2));
    assert c2.actions == c.actions + [StatusSet(302), HeaderSet("Location", uri)];
  }

  /** On a fresh connection (nothing written yet), `status` then `json`
      records exactly that status, the JSON content type, and the serialized
      text as the body, and the response has ended. */
  lemma StatusThenJsonResponse<E>(
    status: StatusCode, body: Unknown, onError: Unknown -> E, serialize: Unknown -> Either<Unknown, string>, c: StatusOpenConnection)
    requires c.actions == []
    requires serialize(body).Right?
    ensures var m := IChain((_: ()) => Json(body, onError, serialize), Status<E>(status));
      && m(c).Right?
      && Coherent(m(c).right.1)
      && Recorded(m(c).right.1)
         == Response(Some(status), [("Content-Type", "application/json")], [], Some(String(serialize(body).right)), true)
  {
    var c1 := SetStatus(c, status);
    JsonWrites(body, onError, serialize, c1);
    assert Recorded(c) == NoResponse;
  }
}
