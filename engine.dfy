/**
 * The protocol engine as the adapter sees it: what each grant call yields, the typed
 * errors it throws, and the response object it fills in. The engine itself (grant
 * types, token and code issuance, scope and client checks, the storage model) is
 * not part of this model; its result is an input.
 */
module Engine {
  import opened Wrappers
  import opened Js

  /** The error classes of the engine; only UnauthorizedRequest is treated specially by the adapter. */
  datatype ErrorKind =
    | InvalidArgument
    | InvalidRequest
    | InvalidClient
    | InvalidGrant
    | InvalidScope
    | InvalidToken
    | InsufficientScope
    | UnauthorizedClient
    | UnauthorizedRequest
    | AccessDenied
    | UnsupportedGrantType
    | UnsupportedResponseType
    | ServerError

  /** A thrown engine error: its class, HTTP status `code`, machine-readable `name` and `message`. */
  datatype ProtocolError = ProtocolError(kind: ErrorKind, code: int, name: string, message: string)

  /** The error the constructor throws when no model is given (an InvalidArgumentError of the engine library). */
  function MissingModel(): ProtocolError
  {
    ProtocolError(InvalidArgument, 500, "invalid_argument", "Missing parameter: `model`")
  }

  /** The token object the engine returns from `authenticate` and `token`; its fields are the engine's business. */
  datatype Token = Token(accessToken: string)

  /** The authorization code object the engine returns from `authorize`. */
  datatype AuthorizationCode = AuthorizationCode(authorizationCode: string)

  /** How one awaited engine call ends: it resolves to a value or rejects with an error. */
  datatype Outcome<+T> = Granted(value: T) | Failed(error: ProtocolError)

  type Headers = map<string, string>

  /** Looking up a header by its exact name: absent reads as undefined (None). */
  function Lookup(headers: Headers, name: string): Option<string>
  {
    if name in headers then Some(headers[name]) else None
  }

  /** The value of an engine response: status, header map and body. */
  datatype Reply = Reply(status: int, headers: Headers, body: JsValue)

  /** The engine's mutable response carrier, as filled in by the engine call. */
  class EngineResponse {
    var status: int
    var headers: Headers
    var body: JsValue

    function Snapshot(): Reply
      reads this
    {
      Reply(status, headers, body)
    }

    constructor (r: Reply)
      ensures Snapshot() == r
    {
      status, headers, body := r.status, r.headers, r.body;
    }

    /** `delete response.headers[name]`. */
    method DeleteHeader(name: string)
      modifies this
      ensures Snapshot() == old(Snapshot()).(headers := old(headers) - {name})
    {
      headers := headers - {name};
    }
  }
}
