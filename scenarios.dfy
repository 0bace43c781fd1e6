/**
 * The adapter class used as a caller would: two requests and one failed
 * construction, showing what can be concluded from the method contracts and the
 * lemmas of module Properties alone.
 */
module Scenarios {
  import opened Wrappers
  import opened Js
  import opened Engine
  import opened Express
  import opened OAuthServer
  import opened Properties

  /** A token request whose grant succeeds is answered with the engine's status, headers and body. */
  method TokenEndpointScenario(token: Engine.Token, body: JsValue)
  {
    var options := new JsObject(map["model" := Object(1), "accessTokenLifetime" := Number(3600.0)]);
    var created := ExpressOAuthServer.New(options);
    assert created.Success?;
    var server := created.value;
    assert !server.continueMiddleware && !server.useErrorHandler;
    assert server.engineOptions == options;
    assert options.props == map["model" := Object(1), "accessTokenLifetime" := Number(3600.0)];

    var res := new FrameworkResponse();
    var headers := map["Cache-Control" := "no-store", "Pragma" := "no-cache"];
    var response := new EngineResponse(Reply(200, headers, body));
    server.Token(res, Granted(token), response);

    var reply := Reply(200, headers, body);
    assert TokenOutcome(Granted(token)) == Granted(TokenLocals(token));
    assert res.Snapshot() == Apply(Untouched, GrantCalls(server.Settings(), Granted(TokenLocals(token)), reply));
    GrantRenders(server.Settings(), Untouched, TokenLocals(token), reply);
    PlainRendering(Untouched.(locals := Some(TokenLocals(token)), history := Untouched.history + [SetLocals(TokenLocals(token))]), reply);
    assert map[] + headers == headers;
    assert res.status == Some(200);
    assert res.body == Some(Payload(body));
    assert res.headers == headers;
    assert res.locals == Some(TokenLocals(token));
    assert NextArgs(res.history) == [];
  }

  /** A protected resource requested without a valid bearer token is answered 401 with an empty body. */
  method ProtectedResourceScenario()
  {
    var options := new JsObject(map["model" := Object(7)]);
    var created := ExpressOAuthServer.New(options);
    assert created.Success?;
    var server := created.value;

    var res := new FrameworkResponse();
    var e := ProtocolError(UnauthorizedRequest, 401, "unauthorized_request", "Unauthorized request: no authentication given");
    server.Authenticate(res, Failed(e));

    ErrorRendered(Untouched, e, None);
    assert res.status == Some(401);
    assert res.body == Some(Empty);
    assert res.headers == map[];
    assert res.locals == None;
    assert NextArgs(res.history) == [];
  }

  /** Without a model, construction fails and leaves the options object alone. */
  method MissingModelScenario()
  {
    var options := new JsObject(map["useErrorHandler" := Bool(true), "model" := Null]);
    var created := ExpressOAuthServer.New(options);
    assert created == Failure(MissingModel());
    assert "useErrorHandler" in options.props;
  }
}
