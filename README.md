# express-oauth-server adapter, modelled in Dafny

`ExpressOAuthServer` (index.js) wraps an OAuth2 protocol engine as three Express
middlewares. `authenticate` checks a bearer token. `authorize` issues an
authorization code. `token` issues a token. Each middleware awaits one engine
call. On success it stores `res.locals.oauth`, then either calls `next()` or
renders the engine response. On failure it forwards the error to `next(e)` or
renders it as an HTTP error.

The model has these parts:

- `Js`: the JavaScript values the constructor reads from its options object,
  `!!v` (`Truthy`), property reads, and an object whose properties can be
  `delete`d.
- `Engine`: what the engine hands back. A `Granted` value or a `Failed`
  `ProtocolError` (kind, HTTP code, name, message) is an input to the model.
  The engine response is a mutable object (`EngineResponse`) with status,
  headers and body.
- `Express`: the framework response `res` and the `next` hook of one request,
  as a class `FrameworkResponse`. Its fields are headers, status, body,
  redirect, `locals.oauth`, and the history of every call made on it, in order.
  `Step` gives the effect of one call on a snapshot (`Shell`): `res.set` merges
  headers, with incoming keys overriding. `Apply` gives the effect of a list of
  calls. `NextArgs` reads the arguments of `next` off a history.
- `OAuthServer`: the adapter itself. `Configure` is what the constructor
  computes. `HandleResponseCalls`, `HandleErrorCalls`, `AuthenticateCalls` and
  `GrantCalls` give the exact, ordered list of calls each path makes. The
  methods `HandleResponse`, `ExpressOAuthServer.HandleError`, `Authenticate`,
  `Authorize` and `Token` make the same calls as index.js, in the same order.
  Each one is proved to leave `res` in the state `Apply(old state, calls)`.
  The methods that change the engine response also say what it becomes.
- `Properties`: what those call lists mean. They cover how a request finishes
  (exactly one of rendered here, `next()`, `next(e)`) and that headers are
  written before status and body. They also give the final response state on
  each path.
- `Scenarios`: the class used as a caller would. There are two requests (a
  token grant, and an unauthenticated access to a protected resource) and one
  construction without a model.

index.d.ts offers `continueMiddleware` as a per-call option of
`authorize`/`token`. index.js reads it only from the constructor options
(index.js:63, 121, 154), and the model follows index.js.

## Model

| member | source | states |
|---|---|---|
| `Js.Truthy` | index.js:60-63 | `!!v` is false exactly for the seven falsy JavaScript values (undefined, null, false, 0, NaN, 0n, "") |
| `Js.JsObject.Delete` | index.js:61 | `delete options[key]` removes that key and leaves every other property |
| `Engine.EngineResponse.DeleteHeader` | index.js:172 | `delete response.headers.location` removes the key from the engine's own header map and changes nothing else |
| `OAuthServer.Configure` | index.js:55-67 | Construction fails with the InvalidArgument "Missing parameter: `model`" error exactly when `options.model` is falsy. Otherwise both flags are `!!` of the options, and the engine options are the given options minus `useErrorHandler` and `continueMiddleware`, all other keys unchanged |
| `OAuthServer.ExpressOAuthServer.New` | index.js:55-67 | Throws exactly when the model is falsy, and then leaves the caller's options untouched. Otherwise it yields a fresh adapter whose settings are `Configure(options)`, deletes both flags from the caller's options object, and hands that same object, not a copy, to the engine (`engineOptions` is the caller's reference) |
| `OAuthServer.ExpressOAuthServer.constructor` | index.js:60-66 | Stores both flags coerced to booleans, deletes both keys from the caller's object, and keeps that object itself (not a copy) for the engine |
| `OAuthServer.HandleResponse` | index.js:169-179 | Makes the calls `HandleResponseCalls` lists, in that order. For status 302 the engine response loses its `location` header; otherwise it is unchanged |
| `OAuthServer.ExpressOAuthServer.HandleError` | index.js:185-201 | Makes the calls `HandleErrorCalls` lists. With `useErrorHandler` that is `next(e)` alone. Otherwise: the partial response's headers only if one is given, then the status `e.code`, then the body `ErrorBody(e)` |
| `OAuthServer.ExpressOAuthServer.Authenticate` | index.js:78-96 | One request through `authenticate`: on failure `HandleError` with no partial response; on success `locals.oauth = {token}` then `next()` |
| `OAuthServer.ExpressOAuthServer.Grant` | index.js:120-125 | The shared success path of `authorize` and `token`: set `locals.oauth`, then `next()` if `continueMiddleware`, else `handleResponse` |
| `OAuthServer.ExpressOAuthServer.Authorize` | index.js:107-129 | One request through `authorize`: on failure `HandleError` with the engine response's headers; on success `{code}` and the `Grant` path. Also states the engine response afterwards |
| `OAuthServer.ExpressOAuthServer.Token` | index.js:140-162 | One request through `token`: the same as `Authorize`, with `{token}` |
| `Properties.ErrorCallsDisposition` | index.js:185-201 | `handleError` either forwards the error to `next(e)` and writes nothing, or ends the response and never calls `next` |
| `Properties.AuthenticateDisposition` | index.js:85-92 | Every `authenticate` request finishes in exactly one way. Success continues with `next()` and writes nothing. A failure is forwarded when `useErrorHandler` is set, else rendered |
| `Properties.GrantDisposition` | index.js:114-125 | Every `authorize`/`token` request finishes in exactly one way. Success continues when `continueMiddleware` is set, else renders. A failure is forwarded or rendered according to `useErrorHandler` |
| `Properties.HeadersPrecedeStatusAndBody` | index.js:169-199 | On every path of every middleware, no header is set after the status, the body or a redirect |
| `Properties.RedirectRendering` | index.js:170-174 | For status 302: the redirect target is the engine's original `location` value (undefined if absent). The response's headers become old headers merged with the engine headers minus `location`. An engine `location` never appears as a generic header. Status, body, locals and `next` are untouched. The engine map itself loses `location` |
| `Properties.PlainRendering` | index.js:175-178 | For any other status: all engine headers are merged in, the status is the engine status, and the body is the engine body unchanged. No redirect, no `next`, and the engine response is unchanged |
| `Properties.ErrorForwarded` | index.js:186-187 | With `useErrorHandler`, `next` is called exactly once more, with the same error. No header, status, body, redirect or locals is written |
| `Properties.ErrorRendered` | index.js:188-200 | Without `useErrorHandler`, headers are copied only when a partial response is given, and the status is `e.code`. The body is empty exactly for UnauthorizedRequest, and `{error: name, error_description: message}` otherwise. `next` is not called and locals are untouched |
| `Properties.AuthenticateSuccess` | index.js:91-92 | After a successful `authenticate`, `locals.oauth` is `{token}` and `next()` is called exactly once more, with no argument. No header, status, body or redirect is written |
| `Properties.AuthenticateFailure` | index.js:87-88 | A failed `authenticate` never copies headers (it passes `null`) and never sets `locals.oauth` |
| `Properties.GrantContinues` | index.js:120-123 | A successful `authorize`/`token` with `continueMiddleware` sets `locals.oauth` and calls `next()` exactly once more. Nothing is rendered and the engine response is untouched |
| `Properties.GrantRenders` | index.js:120-125 | A successful `authorize`/`token` without `continueMiddleware` sets `locals.oauth` and then renders exactly as `handleResponse` does. It never calls `next` |
| `Properties.GrantFailure` | index.js:114-118 | A failed `authorize`/`token` never sets `locals.oauth` and leaves the engine response unchanged |

## Left out

- The protocol engine (`NodeOAuthServer` and its `authenticate`, `authorize`, `token`) is not part of this model: grant types, token and code issuance, and scope and client checks are the engine's. Its result is an input `Outcome`, and the engine response it fills in is given as already populated.
- The `Request`/`Response` normalisers (index.js:80-81, 109-110, 142-143) are library constructors. `Authenticate` takes no engine response because `authenticate` never reads the one it builds.
- The per-call `options` of the three middlewares are passed to the engine opaquely, so they do not appear.
- Express internals are plain field updates here: per-key `res.set`, Node's lower-casing of header names, Content-Type charset handling, the status, Location header and body that `res.redirect` sets itself, and the JSON serialisation and content negotiation of `res.send`. Whatever those calls throw is left out too, e.g. setting headers after the response was sent.
- Header names are compared exactly (`location` only), as the code does.
- `async`/`await`, the promises the middlewares return, and concurrent requests are left out: each request is one sequential call.
- The engine instance stored in `this.server` is represented only by the options object it was built from (`engineOptions`).
- Constructor arguments that are not plain objects (`null` makes the property read throw a TypeError) are left out. An omitted argument is the empty map, as the default `{}` gives. Properties inherited through the prototype chain are left out.
- JavaScript numbers are reals with a separate NaN, so +0 and -0 coincide. Symbols are left out.
- `e instanceof UnauthorizedRequestError` is a test of the error's kind tag. The model assumes that every error reaching `handleError` is a `ProtocolError`. An error without `code`, `name` or `message` is not modelled.
