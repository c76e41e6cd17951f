/** The connection between the HTTP server and the user agent, in the four
    phases of a response: the status line, the headers, the body, and the end.
    The connection itself belongs to the hosting server; what stands here is a
    recording connection: it carries the request data the core reads and logs,
    in order, every mutator call made on it. */
module Connections {
  import opened Either
  import opened Values

  /** Where in the response lifecycle a connection is. */
  datatype Phase =
    | StatusOpen     // the status line is ready to be sent
    | HeadersOpen    // headers may be sent; the body has not started
    | BodyOpen       // the headers are sent; the body is streaming
    | ResponseEnded  // the body, and thus the response, is finished

  /** The closed table of HTTP status codes the core names. */
  type StatusCode = n: int | n in {200, 201, 302, 400, 401, 403, 404, 405, 406, 500} witness 200

  const OK: StatusCode := 200
  const Created: StatusCode := 201
  const Found: StatusCode := 302
  const BadRequest: StatusCode := 400
  const Unauthorized: StatusCode := 401
  const Forbidden: StatusCode := 403
  const NotFound: StatusCode := 404
  const MethodNotAllowed: StatusCode := 405
  const NotAcceptable: StatusCode := 406
  const ServerError: StatusCode := 500

  /** The closed table of media types the core names. */
  type MediaType = s: string | s in {
    "application/x-www-form-urlencoded", "application/json", "application/javascript",
    "application/octet-stream", "application/xml", "image/gif", "image/jpeg", "image/png",
    "multipart/form-data", "text/csv", "text/html", "text/plain", "text/xml"
  } witness "application/json"

  const ApplicationJSON: MediaType := "application/json"

  /** `sameSite`: a flag, or one of the two named policies. */
  datatype SameSite = SameSiteFlag(enabled: bool) | Strict | Lax

  /** Cookie options, each one optional; the expiry instant is opaque
      (milliseconds since the epoch). */
  datatype CookieOptions = CookieOptions(
    expires: Option<int>,
    domain: Option<string>,
    httpOnly: Option<bool>,
    maxAge: Option<real>,
    path: Option<string>,
    sameSite: Option<SameSite>,
    secure: Option<bool>,
    signed: Option<bool>)

  /** The request side of a connection, as the accessors return it. */
  datatype Request = Request(
    raw: Unknown,
    body: Unknown,
    headers: map<string, Unknown>,
    params: Unknown,
    query: Unknown,
    originalUrl: string,
    httpMethod: string)

  /** One call of a response mutator, as the recording connection logs it. */
  datatype Action =
    | StatusSet(status: StatusCode)
    | HeaderSet(name: string, value: string)
    | CookieSet(name: string, value: string, options: CookieOptions)
    | CookieCleared(name: string, options: CookieOptions)
    | BodySet(body: Unknown)
    | Ended

  datatype Connection = Connection(phase: Phase, request: Request, actions: seq<Action>)

  const NoRequest := Request(Undefined, Undefined, map[], Undefined, Undefined, "", "")

  /** The phase-indexed connection types `Connection<StatusOpen>`, ... */
  type StatusOpenConnection = c: Connection | c.phase == StatusOpen witness Connection(StatusOpen, NoRequest, [])
  type HeadersOpenConnection = c: Connection | c.phase == HeadersOpen witness Connection(HeadersOpen, NoRequest, [])
  type BodyOpenConnection = c: Connection | c.phase == BodyOpen witness Connection(BodyOpen, NoRequest, [])
  type ResponseEndedConnection = c: Connection | c.phase == ResponseEnded witness Connection(ResponseEnded, NoRequest, [])

  // Read accessors; they do not depend on the phase.

  function GetRequest(c: Connection): Unknown { c.request.raw }
  function GetBody(c: Connection): Unknown { c.request.body }
  function GetHeader(c: Connection, name: string): Unknown {
    if name in c.request.headers then c.request.headers[name] else Undefined
  }
  function GetParams(c: Connection): Unknown { c.request.params }
  function GetQuery(c: Connection): Unknown { c.request.query }
  function GetOriginalUrl(c: Connection): string { c.request.originalUrl }
  function GetMethod(c: Connection): string { c.request.httpMethod }

  /** The response a user agent would receive from a sequence of mutator calls:
      the status line, the headers and the cookie operations in order, the body,
      and whether the response has ended. */
  datatype Response = Response(
    status: Option<StatusCode>,
    headers: seq<(string, string)>,
    cookies: seq<Action>,
    body: Option<Unknown>,
    ended: bool)

  const NoResponse := Response(None, [], [], None, false)

  /** The effect of one mutator call on the response. */
  function Record(r: Response, a: Action): Response {
    match a
    case StatusSet(s) => r.(status := Some(s))
    case HeaderSet(name, value) => r.(headers := r.headers + [(name, value)])
    case CookieSet(_, _, _) => r.(cookies := r.cookies + [a])
    case CookieCleared(_, _) => r.(cookies := r.cookies + [a])
    case BodySet(b) => r.(body := Some(b), ended := true)
    case Ended => r.(ended := true)
  }

  /** Replays a log of mutator calls, first call first. */
  function Replay(r: Response, log: seq<Action>): Response
    decreases |log|
  {
    if log == [] then r else Replay(Record(r, log[0]), log[1..])
  }

  /** The response recorded on a connection so far. */
  function Recorded(c: Connection): Response {
    Replay(NoResponse, c.actions)
  }

  /** Replaying one more call is recording it on the replayed response. */
  lemma {:induction false} ReplaySnoc(r: Response, log: seq<Action>, a: Action)
    ensures Replay(r, log + [a]) == Record(Replay(r, log), a)
    decreases |log|
  {
    if log != [] {
      assert (log + [a])[0] == log[0];
      assert (log + [a])[1..] == log[1..] + [a];
      ReplaySnoc(Record(r, log[0]), log[1..], a);
    }
  }

  /** Calls that the header phase allows. */
  predicate HeaderPhaseAction(a: Action) {
    a.HeaderSet? || a.CookieSet? || a.CookieCleared?
  }

  /** Calls that end the response. */
  predicate Finishing(a: Action) {
    a.BodySet? || a.Ended?
  }

  /** A status line followed by header-phase calls only. */
  predicate StatusThenHeaders(log: seq<Action>) {
    1 <= |log| && log[0].StatusSet? && forall i :: 1 <= i < |log| ==> HeaderPhaseAction(log[i])
  }

  /** The phase tag agrees with the calls made on a connection that started
      with nothing written: nothing in the status phase; a status line and
      header-phase calls while headers are open or the body is streaming; one
      finishing call after that once the response has ended. */
  predicate Coherent(c: Connection) {
    match c.phase
    case StatusOpen => c.actions == []
    case HeadersOpen => StatusThenHeaders(c.actions)
    case BodyOpen => StatusThenHeaders(c.actions)
    case ResponseEnded =>
      2 <= |c.actions| && StatusThenHeaders(c.actions[..|c.actions| - 1]) && Finishing(c.actions[|c.actions| - 1])
  }

  // The mutators, each on the phase its `this` type demands.

  function SetStatus(c: StatusOpenConnection, status: StatusCode): (r: HeadersOpenConnection)
    ensures r.request == c.request && r.actions == c.actions + [StatusSet(status)]
    ensures Recorded(r) == Recorded(c).(status := Some(status))
    ensures Coherent(c) ==> Coherent(r)
  {
    ReplaySnoc(NoResponse, c.actions, StatusSet(status));
    Connection(HeadersOpen, c.request, c.actions + [StatusSet(status)])
  }

  function SetHeader(c: HeadersOpenConnection, name: string, value: string): (r: HeadersOpenConnection)
    ensures r.request == c.request && r.actions == c.actions + [HeaderSet(name, value)]
    ensures Recorded(r) == Recorded(c).(headers := Recorded(c).headers + [(name, value)])
    ensures Coherent(c) ==> Coherent(r)
  {
    ReplaySnoc(NoResponse, c.actions, HeaderSet(name, value));
    Connection(HeadersOpen, c.request, c.actions + [HeaderSet(name, value)])
  }

  function SetCookie(c: HeadersOpenConnection, name: string, value: string, options: CookieOptions): (r: HeadersOpenConnection)
    ensures r.request == c.request && r.actions == c.actions + [CookieSet(name, value, options)]
    ensures Recorded(r) == Recorded(c).(cookies := Recorded(c).cookies + [CookieSet(name, value, options)])
    ensures Coherent(c) ==> Coherent(r)
  {
    ReplaySnoc(NoResponse, c.actions, CookieSet(name, value, options));
    Connection(HeadersOpen, c.request, c.actions + [CookieSet(name, value, options)])
  }

  function ClearCookie(c: HeadersOpenConnection, name: string, options: CookieOptions): (r: HeadersOpenConnection)
    ensures r.request == c.request && r.actions == c.actions + [CookieCleared(name, options)]
    ensures Recorded(r) == Recorded(c).(cookies := Recorded(c).cookies + [CookieCleared(name, options)])
    ensures Coherent(c) ==> Coherent(r)
  {
    ReplaySnoc(NoResponse, c.actions, CookieCleared(name, options));
    Connection(HeadersOpen, c.request, c.actions + [CookieCleared(name, options)])
  }

  function SetBody(c: BodyOpenConnection, body: Unknown): (r: ResponseEndedConnection)
    ensures r.request == c.request && r.actions == c.actions + [BodySet(body)]
    ensures Recorded(r) == Recorded(c).(body := Some(body), ended := true)
    ensures Coherent(c) ==> Coherent(r)
  {
    ReplaySnoc(NoResponse, c.actions, BodySet(body));
    Connection(ResponseEnded, c.request, c.actions + [BodySet(body)])
  }

  function EndResponse(c: BodyOpenConnection): (r: ResponseEndedConnection)
    ensures r.request == c.request && r.actions == c.actions + [Ended]
    ensures Recorded(r) == Recorded(c).(ended := true)
    ensures Coherent(c) ==> Coherent(r)
  {
    ReplaySnoc(NoResponse, c.actions, Ended);
    Connection(ResponseEnded, c.request, c.actions + [Ended])
  }

  /** Header-phase calls leave the status line, the body and the end flag alone. */
  lemma {:induction false} HeaderPhaseKeeps(log: seq<Action>)
    requires StatusThenHeaders(log)
    ensures Replay(NoResponse, log).status.Some?
    ensures Replay(NoResponse, log).body.None? && !Replay(NoResponse, log).ended
    decreases |log|
  {
    if |log| > 1 {
      var prefix := log[..|log| - 1];
      assert log == prefix + [log[|log| - 1]];
      assert forall i :: 1 <= i < |prefix| ==> prefix[i] == log[i];
      HeaderPhaseKeeps(prefix);
      ReplaySnoc(NoResponse, prefix, log[|log| - 1]);
    } else {
      assert log == [] + [log[0]];
      ReplaySnoc(NoResponse, [], log[0]);
    }
  }

  /** What each phase means for the recorded response of a coherent
      connection: nothing is written while the status is open; while headers
      are open or the body streams, the status line is written and the body
      has not ended; once the response has ended, it is recorded as ended. */
  lemma CoherentResponse(c: Connection)
    requires Coherent(c)
    ensures c.phase == StatusOpen ==> Recorded(c) == NoResponse
    ensures c.phase in {HeadersOpen, BodyOpen} ==>
      Recorded(c).status.Some? && Recorded(c).body.None? && !Recorded(c).ended
    ensures c.phase == ResponseEnded ==> Recorded(c).status.Some? && Recorded(c).ended
  {
    match c.phase
    case StatusOpen =>
    case HeadersOpen => HeaderPhaseKeeps(c.actions);
    case BodyOpen => HeaderPhaseKeeps(c.actions);
    case ResponseEnded =>
      var n := |c.actions|;
      assert c.actions == c.actions[..n - 1] + [c.actions[n - 1]];
      HeaderPhaseKeeps(c.actions[..n - 1]);
      ReplaySnoc(NoResponse, c.actions[..n - 1], c.actions[n - 1]);
  }
}
