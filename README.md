# hyper-ts middleware core in Dafny

This project models the core of hyper-ts: a typed, indexed "middleware"
computation for writing HTTP handlers. A middleware takes a connection in a
response phase `I`. It yields either a failure `E`, or a value `A` together
with the connection in phase `O`. The phases are StatusOpen → HeadersOpen →
BodyOpen → ResponseEnded. Around it sit the combinators:

- sequencing (`ichain`);
- running (`evalMiddleware`, `execMiddleware`);
- recovery (`orElse`, `alt`);
- lifting;
- the `middleware` instance (`map`, `ap`, `chain`, `bimap`, `mapLeft`);
- the response builders (`status`, `header`, `contentType`, `cookie`,
  `clearCookie`, `closeHeaders`, `send`, `end`, `json`, `redirect`);
- the request decoders (`decodeParam`, `decodeParams`, `decodeQuery`,
  `decodeBody`, `decodeMethod`, `decodeHeader`).

How the model is built:

- `Middleware<I, O, E, A>` is the Dafny function type `I -> Either<E, (A, O)>`.
  `TaskEither` is taken synchronously, as the `Either` it eventually yields.
- The phantom phase of `Connection<S>` is a `phase` tag on the `Connection`
  datatype. Each of `Connection<StatusOpen>`, `Connection<HeadersOpen>`, ... is a
  subset type of `Connection`. The mutators and builders take and return these
  subset types. So the verifier checks the phase table of every builder, as
  TypeScript's type checker does.
- The connection is a recording connection. It holds the request data that the
  accessors return, and it logs every mutator call in order. `Recorded` replays
  that log into the `Response` a user agent would see: status line, headers,
  cookie operations, body and end flag.
- `Coherent` states what the phase markers mean about the calls made so far.
- JavaScript `unknown` values are the `Unknown` datatype, which keeps what
  `typeof` distinguishes.

Files:

- `either.dfy`: `Option`, `Either`, `mapEither`.
- `task_either.dfy`: the `TaskEither` operations, taken synchronously.
- `values.dfy`: `Unknown`, `typeof`, `isUnknownRecord`, property access.
- `connection.dfy`: phases, the status and media-type tables, cookie options,
  the connection, its accessors and mutators, the recorded response, coherence.
- `middleware.dfy`: the middleware type, the core combinators, the instance and
  their laws.
- `response.dfy`: the response builders.
- `decode.dfy`: the request decoders.

Two points where the code is narrower than a reading of its documentation suggests, and which the model follows:

- `setCookie` and `clearCookie` require `HeadersOpen` only
  (src/index.ts:129-135).
- `closeHeaders` calls no mutator at all: it is `iof(undefined)` re-indexed
  (src/index.ts:376-385).

## Model

| member | source | states |
|---|---|---|
| `Values.IsUnknownRecord` | src/index.ts:440 | the guard `u !== null && typeof u === 'object'` holds exactly for object values |
| `Connections.SetStatus` | src/index.ts:137 | takes a StatusOpen connection to HeadersOpen with the same request; appends one setStatus call; the recorded response gains that status and nothing else changes; coherence is preserved |
| `Connections.SetHeader` | src/index.ts:136 | HeadersOpen to HeadersOpen; appends one setHeader call; the header is added at the end of the recorded header list and nothing else changes; coherence is preserved |
| `Connections.SetCookie` | src/index.ts:129-134 | HeadersOpen to HeadersOpen; appends one setCookie call, recorded after the earlier cookie operations, and nothing else changes; coherence is preserved |
| `Connections.ClearCookie` | src/index.ts:135 | HeadersOpen to HeadersOpen; appends one clearCookie call, recorded after the earlier cookie operations, and nothing else changes; coherence is preserved |
| `Connections.SetBody` | src/index.ts:138 | BodyOpen to ResponseEnded; appends one setBody call; the recorded body is set and the response is ended; coherence is preserved |
| `Connections.EndResponse` | src/index.ts:139 | BodyOpen to ResponseEnded; appends one endResponse call; the response is ended and the body is unchanged; coherence is preserved |
| `Connections.CoherentResponse` | src/index.ts:77-111 | for a coherent connection: in StatusOpen nothing is recorded; in HeadersOpen or BodyOpen a status line is recorded and the body has neither started nor ended; in ResponseEnded a status line is recorded and the response has ended |
| `Middlewares.IChainSequences` | src/index.ts:201-209 | if `ma` fails, `ichain(f)(ma)` returns the same error whatever `f` is; if `ma` succeeds with `(a, co)`, the result is `f(a)(co)` |
| `Middlewares.IChainLeftIdentity` | src/index.ts:201-209 | `ichain(f)(iof(a))` behaves as `f(a)` on every connection |
| `Middlewares.IChainRightIdentity` | src/index.ts:201-209 | `ichain(iof)(m)` behaves as `m` on every connection |
| `Middlewares.IChainAssociative` | src/index.ts:201-209 | chaining `f` then `g` after `m` equals chaining after `m` the function that chains `g` after `f(a)`, across three phase transitions |
| `Middlewares.ChainMonadLaws` | src/index.ts:515-517 | left identity, right identity and associativity for the instance's `chain` and `of` |
| `Middlewares.EvalExecProject` | src/index.ts:214-232 | `evalMiddleware` and `execMiddleware` succeed exactly when the middleware does; on success they give the two components of the pair; on failure both give the same error |
| `Middlewares.ReadersKeepConnection` | src/index.ts:145-162 | `gets(f)` yields `f(c)` and keeps `c`; `fromConnection(f)` yields `f(c)`, failures included, and keeps `c` on success |
| `Middlewares.ModifyConnectionSucceeds` | src/index.ts:167-169 | `modifyConnection(f)` always succeeds, with unit and `f(c)` |
| `Middlewares.LiftsKeepConnection` | src/index.ts:250-322 | `iof`/`right` succeed with the value on the same connection; `left` fails with the error; `fromTaskEither`, `fromEither`, `fromIOEither`, `rightTask`, `leftTask`, `rightIO` and `leftIO` return the given result and keep the connection; `tryCatch` maps a rejection reason through `onRejected` |
| `Middlewares.OrElseRecovers` | src/index.ts:237-245 | a success of `ma` is the result; on failure the handler of the error runs on the original input connection |
| `Middlewares.AltFallsBack` | src/index.ts:518-522 | a success of `fx` is the result whatever the fallback is; on failure the fallback runs on the original input connection |
| `Middlewares.MapKeepsConnection` | src/index.ts:510-514 | `map` applies `f` to the value only: the evaluated result is the mapped one, and the executed connection, failure included, is that of `ma` |
| `Middlewares.MapFunctor` | src/index.ts:510-514 | `map` with the identity is the identity; `map` of `map` is `map` of the composition |
| `Middlewares.MapLeftKeepsSuccess` | src/index.ts:528 | `mapLeft` passes a success through unchanged and maps a failure with `f` |
| `Middlewares.BimapIsMapThenMapLeft` | src/index.ts:523-527 | `bimap(fea, f, g)` equals `mapLeft(map(fea, g), f)`; it succeeds exactly when `fea` does, and then on the same output connection |
| `Middlewares.ApSequences` | src/index.ts:516-517 | `ap` fails with the function middleware's failure; otherwise it maps the value of the argument middleware, run on the connection the function middleware left; `ap(iof(h), ma)` is `map(ma, h)` |
| `Responses.StatusWrites` | src/index.ts:329-331 | `status` always succeeds, going from StatusOpen to HeadersOpen; it makes exactly one setStatus call and records that status; coherence is preserved |
| `Responses.HeaderWrites` | src/index.ts:338-340 | `header` always succeeds and stays in HeadersOpen; it makes exactly one setHeader call and appends that header; coherence is preserved |
| `Responses.ContentTypeWrites` | src/index.ts:347-349 | `contentType(m)` is `header("Content-Type", m)`: exactly one setHeader call with that name |
| `Responses.CookieWrites` | src/index.ts:356-362 | `cookie` always succeeds and stays in HeadersOpen; it makes exactly one setCookie call; coherence is preserved |
| `Responses.ClearCookieWrites` | src/index.ts:369-374 | `clearCookie` always succeeds and stays in HeadersOpen; it makes exactly one clearCookie call; coherence is preserved |
| `Responses.CloseHeadersWrites` | src/index.ts:376-385 | `closeHeaders` always succeeds, going from HeadersOpen to BodyOpen; it makes no call and leaves the recorded response unchanged; coherence is preserved |
| `Responses.SendWrites` | src/index.ts:392-394 | `send` always succeeds, going from BodyOpen to ResponseEnded; it makes exactly one setBody call with the text, so the body is recorded and the response ends |
| `Responses.EndWrites` | src/index.ts:396-405 | `end` always succeeds, going from BodyOpen to ResponseEnded; it makes exactly one endResponse call and leaves the body unset |
| `Responses.JsonWrites` | src/index.ts:412-426 | if serialization fails, `json` fails with `onError(reason)` and no connection comes out; otherwise it ends in ResponseEnded having made exactly two calls, `Content-Type: application/json` and then the serialized text as body; coherence is preserved |
| `Responses.RedirectWrites` | src/index.ts:433-438 | `redirect(uri)` goes from StatusOpen to HeadersOpen having made exactly two calls, status 302 and then the header `Location: uri` |
| `Responses.StatusThenJsonResponse` | src/index.ts:412-426 | on a fresh connection, `status(s)` then a `json` whose serialization succeeds records exactly status `s`, one `Content-Type: application/json` header, no cookies and the serialized body, and the response has ended |
| `Decoders.DecodeParamReads` | src/index.ts:440-455 | the decoder receives `params[name]` when the params are an object with that property, and `undefined` when the property is missing or the params are not an object; the connection is kept |
| `Decoders.DecodeParamsReads` | src/index.ts:462-464 | the decoder receives the params value; its result is the middleware's result; the connection is kept |
| `Decoders.DecodeQueryReads` | src/index.ts:471-473 | the decoder receives the query value; its result is the middleware's result; the connection is kept |
| `Decoders.DecodeBodyReads` | src/index.ts:480-482 | the decoder receives the request body; its result is the middleware's result; the connection is kept |
| `Decoders.DecodeMethodReads` | src/index.ts:489-491 | the decoder receives the request method; its result is the middleware's result; the connection is kept |
| `Decoders.DecodeHeaderReads` | src/index.ts:498-503 | the decoder receives the named request header, or `undefined` when it is absent; its result is the middleware's result; the connection is kept |

## Left out

- Asynchrony. `Task`, `Promise` and deferral are not modelled: every `TaskEither` is the `Either` it settles to. So `tryCatch`, `rightTask`, `leftTask`, `rightIO`, `leftIO` and `fromIOEither` take the settled result or value as a parameter.
- `Middlewares.Iof`: only the instance whose input and output phase are the same is generic. The unchecked re-indexing cast `c as any` (src/index.ts:251) is modelled only where the core uses it, in `closeHeaders`, as a change of the phase tag.
- The fp-ts type-class machinery: the HKT module augmentation and the `URI` constant (src/index.ts:171-185). Also the `pipeable`-derived `apFirst`, `apSecond`, `chainFirst`, `flatten`, `filterOrElse`, `fromOption` and `fromPredicate` (src/index.ts:534-549), whose definitions are not part of this model. `fromEither`, which `json` uses, is modelled as the throwing-monad derivation: throw a left, return a right.
- JSON serialization. `JSON.stringify` is a parameter that yields either the text or a thrown reason. A value it maps to `undefined` (rather than to text) is not distinguished.
- The real connection and the transport. The recording connection stands in for them. It logs calls and does not model a particular server's header-overwrite or cookie-header encoding. A missing request header reads as `undefined`.
- JavaScript values. Property lookup sees own properties only, not inherited ones. Numbers are reals, not IEEE doubles. Functions and symbols are opaque. The cookie `expires` instant is an opaque number.
