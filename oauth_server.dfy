/**
 * The adapter class of index.js: construction from an options object, the three
 * middlewares `authenticate`, `authorize` and `token`, and the private helpers
 * `handleResponse` and `handleError`.
 *
 * Each middleware is specified by the ordered list of calls it makes on the
 * framework response and on `next`; the methods are proved to make exactly those
 * calls, and the properties of the lists are proved in module Properties.
 */
module OAuthServer {
  import opened Wrappers
  import opened Js
  import opened Engine
  import opened Express

  /** The two options the adapter takes for itself and removes before the engine sees them. */
  const AdapterKeys: set<string> := {"useErrorHandler", "continueMiddleware"}

  /** The adapter's fixed configuration, and the options object handed on to the engine. */
  datatype Config = Config(useErrorHandler: bool, continueMiddleware: bool, engineOptions: map<string, JsValue>)

  /** What construction from `options` yields: an InvalidArgument error without a model, else the configuration. */
  function Configure(options: map<string, JsValue>): (r: Result<Config, ProtocolError>)
    ensures r.Failure? <==> !Truthy(Get(options, "model"))
    ensures r.Failure? ==> r.error == MissingModel()
    ensures r.Success? ==> r.value.useErrorHandler == Truthy(Get(options, "useErrorHandler"))
    ensures r.Success? ==> r.value.continueMiddleware == Truthy(Get(options, "continueMiddleware"))
    ensures r.Success? ==> r.value.engineOptions.Keys == options.Keys - AdapterKeys
    ensures r.Success? ==> forall k :: k in r.value.engineOptions ==> r.value.engineOptions[k] == options[k]
  {
    if !Truthy(Get(options, "model")) then
      Failure(MissingModel())
    else
      Success(Config(Truthy(Get(options, "useErrorHandler")),
                     Truthy(Get(options, "continueMiddleware")),
                     options - {"useErrorHandler"} - {"continueMiddleware"}))
  }

  /** The calls `handleResponse` makes for an engine response. */
  function HandleResponseCalls(reply: Reply): seq<Effect>
  {
    if reply.status == 302 then
      [SetHeaders(reply.headers - {"location"}), Redirect(Lookup(reply.headers, "location"))]
    else
      [SetHeaders(reply.headers), SetStatus(reply.status), Send(Payload(reply.body))]
  }

  /** The engine response after `handleResponse`: a redirect loses its `location` header. */
  function HandledReply(reply: Reply): Reply
  {
    if reply.status == 302 then reply.(headers := reply.headers - {"location"}) else reply
  }

  /** The body `handleError` sends for a locally rendered error. */
  function ErrorBody(e: ProtocolError): Body
  {
    if e.kind == UnauthorizedRequest then Empty else ErrorObject(e.name, e.message)
  }

  /** The calls `handleError` makes; `partial` holds the engine response headers when one is passed. */
  function HandleErrorCalls(useErrorHandler: bool, e: ProtocolError, partial: Option<Headers>): seq<Effect>
  {
    if useErrorHandler then
      [CallNext(Some(e))]
    else
      (if partial.Some? then [SetHeaders(partial.value)] else [])
      + [SetStatus(e.code), Send(ErrorBody(e))]
  }

  /** The calls a request through the `authenticate` middleware makes, given the engine's outcome. */
  function AuthenticateCalls(cfg: Config, outcome: Outcome<Token>): seq<Effect>
  {
    match outcome
    case Failed(e) => HandleErrorCalls(cfg.useErrorHandler, e, None)
    case Granted(token) => [SetLocals(TokenLocals(token)), CallNext(None)]
  }

  /**
   * The calls shared by the `authorize` and `token` middlewares, given the engine's
   * outcome already wrapped as the side-channel value, and the engine response.
   */
  function GrantCalls(cfg: Config, outcome: Outcome<OAuthLocals>, reply: Reply): seq<Effect>
  {
    match outcome
    case Failed(e) => HandleErrorCalls(cfg.useErrorHandler, e, Some(reply.headers))
    case Granted(oauth) =>
      [SetLocals(oauth)] + if cfg.continueMiddleware then [CallNext(None)] else HandleResponseCalls(reply)
  }

  /** The engine response after the `authorize` or `token` middleware. */
  function GrantReply(cfg: Config, outcome: Outcome<OAuthLocals>, reply: Reply): Reply
  {
    if outcome.Granted? && !cfg.continueMiddleware then HandledReply(reply) else reply
  }

  /** `{code}` from the engine's `authorize` outcome. */
  function CodeOutcome(outcome: Outcome<AuthorizationCode>): Outcome<OAuthLocals>
  {
    match outcome
    case Granted(code) => Granted(CodeLocals(code))
    case Failed(e) => Failed(e)
  }

  /** `{token}` from the engine's `token` outcome. */
  function TokenOutcome(outcome: Outcome<Token>): Outcome<OAuthLocals>
  {
    match outcome
    case Granted(token) => Granted(TokenLocals(token))
    case Failed(e) => Failed(e)
  }

  /** `handleResponse(req, res, response)`: render a successful engine response. */
  method HandleResponse(res: FrameworkResponse, response: EngineResponse)
    modifies res, response
    ensures res.Snapshot() == Apply(old(res.Snapshot()), HandleResponseCalls(old(response.Snapshot())))
    ensures response.Snapshot() == HandledReply(old(response.Snapshot()))
  {
    ghost var s0, r0 := res.Snapshot(), response.Snapshot();
    if response.status == 302 {
      var location := Lookup(response.headers, "location");
      response.DeleteHeader("location");
      res.Set(response.headers);
      res.RedirectTo(location);
      ApplySnoc(s0, [], SetHeaders(r0.headers - {"location"}));
      ApplySnoc(s0, [SetHeaders(r0.headers - {"location"})], Redirect(location));
    } else {
      res.Set(response.headers);
      res.Status(response.status);
      res.Send(Payload(response.body));
      ApplySnoc(s0, [], SetHeaders(r0.headers));
      ApplySnoc(s0, [SetHeaders(r0.headers)], SetStatus(r0.status));
      ApplySnoc(s0, [SetHeaders(r0.headers), SetStatus(r0.status)], Send(Payload(r0.body)));
    }
  }

  class ExpressOAuthServer {
    var useErrorHandler: bool
    var continueMiddleware: bool
    /** The options object the engine was constructed with: the caller's own object, not a copy. */
    var engineOptions: JsObject

    /** The adapter flags, with the engine's options as they currently stand in the shared object. */
    function Settings(): Config
      reads this, engineOptions
    {
      Config(useErrorHandler, continueMiddleware, engineOptions.props)
    }

    /**
     * `new ExpressOAuthServer(options)`: the model check fails, or both adapter flags
     * are stored as booleans and deleted from the caller's options object, which is
     * then handed to the engine.
     */
    static method New(options: JsObject) returns (r: Result<ExpressOAuthServer, ProtocolError>)
      modifies options
      ensures r.Failure? <==> !Truthy(Get(old(options.props), "model"))
      ensures r.Failure? ==> r.error == MissingModel() && options.props == old(options.props)
      ensures r.Success? ==> fresh(r.value) && Configure(old(options.props)) == Success(r.value.Settings())
      ensures r.Success? ==> options.props == old(options.props) - AdapterKeys
      ensures r.Success? ==> r.value.engineOptions == options
    {
      if !Truthy(Get(options.props, "model")) {
        return Failure(MissingModel());
      }
      var server := new ExpressOAuthServer(options);
      return Success(server);
    }

    /** The part of the constructor after the model check. */
    constructor (options: JsObject)
      requires Truthy(Get(options.props, "model"))
      modifies options
      ensures Configure(old(options.props)) == Success(Settings())
      ensures options.props == old(options.props) - AdapterKeys
      ensures engineOptions == options
    {
      useErrorHandler := Truthy(Get(options.props, "useErrorHandler"));
      options.Delete("useErrorHandler");
      continueMiddleware := Truthy(Get(options.props, "continueMiddleware"));
      options.Delete("continueMiddleware");
      engineOptions := options;
    }

    /** `handleError.call(this, e, req, res, response, next)`; `response` is null for `authenticate`. */
    method HandleError(e: ProtocolError, res: FrameworkResponse, response: EngineResponse?)
      modifies res
      ensures res.Snapshot() ==
        Apply(old(res.Snapshot()),
              HandleErrorCalls(useErrorHandler, e, if response == null then None else Some(response.headers)))
    {
      ghost var s0 := res.Snapshot();
      if useErrorHandler {
        res.Next(Some(e));
        ApplySnoc(s0, [], CallNext(Some(e)));
      } else {
        ghost var done: seq<Effect> := [];
        if response != null {
          res.Set(response.headers);
          ApplySnoc(s0, done, SetHeaders(response.headers));
          done := done + [SetHeaders(response.headers)];
        }
        res.Status(e.code);
        ApplySnoc(s0, done, SetStatus(e.code));
        done := done + [SetStatus(e.code)];
        if e.kind == UnauthorizedRequest {
          res.Send(Empty);
        } else {
          res.Send(ErrorObject(e.name, e.message));
        }
        ApplySnoc(s0, done, Send(ErrorBody(e)));
        assert done + [Send(ErrorBody(e))] ==
          HandleErrorCalls(false, e, if response == null then None else Some(response.headers));
      }
    }

    /** One request through the middleware returned by `authenticate(options)`. */
    method Authenticate(res: FrameworkResponse, outcome: Outcome<Token>)
      modifies res
      ensures res.Snapshot() == Apply(old(res.Snapshot()), AuthenticateCalls(Settings(), outcome))
    {
      match outcome
      case Failed(e) =>
        HandleError(e, res, null);
      case Granted(token) =>
        ghost var s0 := res.Snapshot();
        res.SetOAuthLocals(TokenLocals(token));
        res.Next(None);
        ApplySnoc(s0, [], SetLocals(TokenLocals(token)));
        ApplySnoc(s0, [SetLocals(TokenLocals(token))], CallNext(None));
    }

    /** The success path shared by `authorize` and `token`: set the side channel, then continue or render. */
    method Grant(res: FrameworkResponse, oauth: OAuthLocals, response: EngineResponse)
      modifies res, response
      ensures res.Snapshot() ==
        Apply(old(res.Snapshot()), GrantCalls(Settings(), Granted(oauth), old(response.Snapshot())))
      ensures response.Snapshot() == GrantReply(Settings(), Granted(oauth), old(response.Snapshot()))
    {
      ghost var s0, r0 := res.Snapshot(), response.Snapshot();
      res.SetOAuthLocals(oauth);
      if continueMiddleware {
        res.Next(None);
        ApplyConcat(s0, [SetLocals(oauth)], [CallNext(None)]);
      } else {
        HandleResponse(res, response);
        ApplyConcat(s0, [SetLocals(oauth)], HandleResponseCalls(r0));
      }
    }

    /** One request through the middleware returned by `authorize(options)`. */
    method Authorize(res: FrameworkResponse, outcome: Outcome<AuthorizationCode>, response: EngineResponse)
      modifies res, response
      ensures res.Snapshot() ==
        Apply(old(res.Snapshot()), GrantCalls(Settings(), CodeOutcome(outcome), old(response.Snapshot())))
      ensures response.Snapshot() == GrantReply(Settings(), CodeOutcome(outcome), old(response.Snapshot()))
    {
      match outcome
      case Failed(e) =>
        HandleError(e, res, response);
      case Granted(code) =>
        Grant(res, CodeLocals(code), response);
    }

    /** One request through the middleware returned by `token(options)`. */
    method Token(res: FrameworkResponse, outcome: Outcome<Engine.Token>, response: EngineResponse)
      modifies res, response
      ensures res.Snapshot() ==
        Apply(old(res.Snapshot()), GrantCalls(Settings(), TokenOutcome(outcome), old(response.Snapshot())))
      ensures response.Snapshot() == GrantReply(Settings(), TokenOutcome(outcome), old(response.Snapshot()))
    {
      match outcome
      case Failed(e) =>
        HandleError(e, res, response);
      case Granted(token) =>
        Grant(res, TokenLocals(token), response);
    }
  }
}
