/**
 * What the adapter promises about one request, proved from the call lists of
 * module OAuthServer: which way the request leaves the adapter, the order of the
 * writes, and the response state each path leaves behind.
 */
module Properties {
  import opened Wrappers
  import opened Js
  import opened Engine
  import opened Express
  import opened OAuthServer

  /** No header is set after the status, the body or a redirect. */
  predicate HeadersFirst(calls: seq<Effect>)
  {
    forall i, j :: 0 <= i < j < |calls| && calls[i].Finalizes() ==> !calls[j].SetHeaders?
  }

  /** Some call ends the response. */
  predicate Renders(calls: seq<Effect>)
  {
    exists i :: 0 <= i < |calls| && calls[i].Ends()
  }

  /** Some call writes HTTP output. */
  predicate WritesOutput(calls: seq<Effect>)
  {
    exists i :: 0 <= i < |calls| && calls[i].Writes()
  }

  /** The three ways the adapter may finish with a request. */
  datatype Disposition =
    | Terminate             // rendered here; the chain ends
    | Continue              // `next()`, nothing written
    | Forward(error: ProtocolError)  // `next(e)`, nothing written

  /** The way a list of calls finishes the request, or None when it is none of the three. */
  function DispositionOf(calls: seq<Effect>): Option<Disposition>
  {
    var args := NextArgs(calls);
    if args == [] && Renders(calls) then Some(Terminate)
    else if args == [None] && !WritesOutput(calls) then Some(Continue)
    else if |args| == 1 && args[0].Some? && !WritesOutput(calls) then Some(Forward(args[0].value))
    else None
  }

  /** The disposition an engine failure leads to. */
  function ErrorDisposition(cfg: Config, e: ProtocolError): Disposition
  {
    if cfg.useErrorHandler then Forward(e) else Terminate
  }

  lemma ErrorCallsDisposition(useErrorHandler: bool, e: ProtocolError, partial: Option<Headers>)
    ensures DispositionOf(HandleErrorCalls(useErrorHandler, e, partial))
         == Some(if useErrorHandler then Forward(e) else Terminate)
  {
    var calls := HandleErrorCalls(useErrorHandler, e, partial);
    if useErrorHandler {
      assert calls == [CallNext(Some(e))];
      assert NextArgs(calls) == [Some(e)];
    } else {
      var k := |calls| - 1;
      assert calls[k].Ends();
      NextArgsNone(calls);
    }
  }

  /**
   * Every request through `authenticate` finishes in exactly one way: it continues
   * on success, and on failure it forwards the error or renders it.
   */
  lemma AuthenticateDisposition(cfg: Config, outcome: Outcome<Token>)
    ensures DispositionOf(AuthenticateCalls(cfg, outcome))
         == Some(match outcome
                 case Granted(_) => Continue
                 case Failed(e) => ErrorDisposition(cfg, e))
  {
    match outcome
    case Failed(e) =>
      ErrorCallsDisposition(cfg.useErrorHandler, e, None);
    case Granted(t) =>
      var calls := AuthenticateCalls(cfg, outcome);
      assert NextArgs(calls) == [None];
  }

  /**
   * Every request through `authorize` or `token` finishes in exactly one way: on
   * success it continues when `continueMiddleware` is set and renders otherwise; on
   * failure it forwards the error or renders it.
   */
  lemma GrantDisposition(cfg: Config, outcome: Outcome<OAuthLocals>, reply: Reply)
    ensures DispositionOf(GrantCalls(cfg, outcome, reply))
         == Some(match outcome
                 case Granted(_) => if cfg.continueMiddleware then Continue else Terminate
                 case Failed(e) => ErrorDisposition(cfg, e))
  {
    match outcome
    case Failed(e) =>
      ErrorCallsDisposition(cfg.useErrorHandler, e, Some(reply.headers));
    case Granted(oauth) =>
      var calls := GrantCalls(cfg, outcome, reply);
      if cfg.continueMiddleware {
        assert calls == [SetLocals(oauth), CallNext(None)];
        assert NextArgs(calls) == [None];
      } else {
        var k := |calls| - 1;
        assert calls[k].Ends();
        assert calls == [SetLocals(oauth)] + HandleResponseCalls(reply);
        NextArgsNone(calls);
      }
  }

  /** Within one request, every header write comes before the status, the body and any redirect. */
  lemma HeadersPrecedeStatusAndBody(cfg: Config, token: Outcome<Token>, grant: Outcome<OAuthLocals>, reply: Reply)
    ensures HeadersFirst(AuthenticateCalls(cfg, token))
    ensures HeadersFirst(GrantCalls(cfg, grant, reply))
  {
  }

  /**
   * A redirect (engine status 302) leaves the engine's `location` value as the
   * redirect target, copies every other engine header, never copies `location` as a
   * generic header, and deletes it from the engine's own header map.
   */
  lemma RedirectRendering(s: Shell, reply: Reply)
    requires reply.status == 302
    ensures var r := Apply(s, HandleResponseCalls(reply));
      && r.redirect == Some(Lookup(reply.headers, "location"))
      && r.headers == s.headers + (reply.headers - {"location"})
      && ("location" in r.headers ==> "location" in s.headers && r.headers["location"] == s.headers["location"])
      && r.status == s.status && r.body == s.body && r.locals == s.locals
      && NextArgs(r.history) == NextArgs(s.history)
    ensures HandledReply(reply) == reply.(headers := reply.headers - {"location"})
  {
    var calls := HandleResponseCalls(reply);
    ApplyPair(s, calls[0], calls[1]);
    ApplyHistory(s, calls);
    NextArgsAppend(s.history, calls);
    NextArgsNone(calls);
  }

  /**
   * Any other engine status is rendered as all engine headers, the engine status
   * and the engine body unchanged, and the engine response is left as it was.
   */
  lemma PlainRendering(s: Shell, reply: Reply)
    requires reply.status != 302
    ensures var r := Apply(s, HandleResponseCalls(reply));
      && r.headers == s.headers + reply.headers
      && r.status == Some(reply.status)
      && r.body == Some(Payload(reply.body))
      && r.redirect == s.redirect && r.locals == s.locals
      && NextArgs(r.history) == NextArgs(s.history)
    ensures HandledReply(reply) == reply
  {
    var calls := HandleResponseCalls(reply);
    ApplyTriple(s, calls[0], calls[1], calls[2]);
    ApplyHistory(s, calls);
    NextArgsAppend(s.history, calls);
    NextArgsNone(calls);
  }

  /** With `useErrorHandler`, the error itself goes to `next` once, and nothing is written. */
  lemma ErrorForwarded(s: Shell, e: ProtocolError, partial: Option<Headers>)
    ensures var r := Apply(s, HandleErrorCalls(true, e, partial));
      && r.headers == s.headers && r.status == s.status && r.body == s.body
      && r.redirect == s.redirect && r.locals == s.locals
      && NextArgs(r.history) == NextArgs(s.history) + [Some(e)]
  {
    var calls := HandleErrorCalls(true, e, partial);
    ApplySnoc(s, [], calls[0]);
    ApplyHistory(s, calls);
    NextArgsAppend(s.history, calls);
  }

  /**
   * Without `useErrorHandler`, the error is rendered: partial-response headers are
   * copied only when there is a partial response, the status is the error's code,
   * the body is empty exactly for UnauthorizedRequest and is the error's name and
   * message otherwise, and `next` is not called.
   */
  lemma ErrorRendered(s: Shell, e: ProtocolError, partial: Option<Headers>)
    ensures var r := Apply(s, HandleErrorCalls(false, e, partial));
      && r.headers == (if partial.Some? then s.headers + partial.value else s.headers)
      && r.status == Some(e.code)
      && (r.body == Some(Empty) <==> e.kind == UnauthorizedRequest)
      && (e.kind != UnauthorizedRequest ==> r.body == Some(ErrorObject(e.name, e.message)))
      && r.redirect == s.redirect && r.locals == s.locals
      && NextArgs(r.history) == NextArgs(s.history)
  {
    var calls := HandleErrorCalls(false, e, partial);
    if partial.Some? {
      assert calls == [SetHeaders(partial.value), SetStatus(e.code), Send(ErrorBody(e))];
      ApplyTriple(s, SetHeaders(partial.value), SetStatus(e.code), Send(ErrorBody(e)));
    } else {
      assert calls == [SetStatus(e.code), Send(ErrorBody(e))];
      ApplyPair(s, SetStatus(e.code), Send(ErrorBody(e)));
    }
    ApplyHistory(s, calls);
    NextArgsAppend(s.history, calls);
    NextArgsNone(calls);
  }

  /**
   * A successful authentication sets `locals.oauth` to `{token}` and calls `next()`
   * once with no argument; no header, status, body or redirect is written.
   */
  lemma AuthenticateSuccess(cfg: Config, s: Shell, t: Token)
    ensures var r := Apply(s, AuthenticateCalls(cfg, Granted(t)));
      && r.locals == Some(TokenLocals(t))
      && NextArgs(r.history) == NextArgs(s.history) + [None]
      && r.headers == s.headers && r.status == s.status && r.body == s.body && r.redirect == s.redirect
  {
    var calls := AuthenticateCalls(cfg, Granted(t));
    ApplyPair(s, calls[0], calls[1]);
    ApplyHistory(s, calls);
    NextArgsAppend(s.history, calls);
  }

  /**
   * A failed authentication never copies headers (there is no partial response)
   * and never sets `locals.oauth`.
   */
  lemma AuthenticateFailure(cfg: Config, s: Shell, e: ProtocolError)
    ensures var r := Apply(s, AuthenticateCalls(cfg, Failed(e)));
      r.headers == s.headers && r.locals == s.locals
  {
    if cfg.useErrorHandler {
      ErrorForwarded(s, e, None);
    } else {
      ErrorRendered(s, e, None);
    }
  }

  /**
   * A successful `authorize` or `token` with `continueMiddleware` sets `locals.oauth`
   * and calls `next()` once; nothing is rendered and the engine response is untouched.
   */
  lemma GrantContinues(cfg: Config, s: Shell, oauth: OAuthLocals, reply: Reply)
    requires cfg.continueMiddleware
    ensures var r := Apply(s, GrantCalls(cfg, Granted(oauth), reply));
      && r.locals == Some(oauth)
      && NextArgs(r.history) == NextArgs(s.history) + [None]
      && r.headers == s.headers && r.status == s.status && r.body == s.body && r.redirect == s.redirect
    ensures GrantReply(cfg, Granted(oauth), reply) == reply
  {
    var calls := GrantCalls(cfg, Granted(oauth), reply);
    assert calls == [SetLocals(oauth), CallNext(None)];
    ApplyPair(s, calls[0], calls[1]);
    ApplyHistory(s, calls);
    NextArgsAppend(s.history, calls);
  }

  /**
   * A successful `authorize` or `token` without `continueMiddleware` sets
   * `locals.oauth`, then renders the engine response as `handleResponse` does, and
   * never calls `next`.
   */
  lemma GrantRenders(cfg: Config, s: Shell, oauth: OAuthLocals, reply: Reply)
    requires !cfg.continueMiddleware
    ensures var r := Apply(s, GrantCalls(cfg, Granted(oauth), reply));
      && r == Apply(s.(locals := Some(oauth), history := s.history + [SetLocals(oauth)]), HandleResponseCalls(reply))
      && r.locals == Some(oauth)
      && NextArgs(r.history) == NextArgs(s.history)
    ensures GrantReply(cfg, Granted(oauth), reply) == HandledReply(reply)
  {
    var calls := GrantCalls(cfg, Granted(oauth), reply);
    assert calls == [SetLocals(oauth)] + HandleResponseCalls(reply);
    ApplyConcat(s, [SetLocals(oauth)], HandleResponseCalls(reply));
    ApplyHistory(s, calls);
    NextArgsAppend(s.history, calls);
    NextArgsNone(calls);
    var s1 := Step(s, SetLocals(oauth));
    if reply.status == 302 {
      RedirectRendering(s1, reply);
    } else {
      PlainRendering(s1, reply);
    }
  }

  /** A failed `authorize` or `token` never sets `locals.oauth`. */
  lemma GrantFailure(cfg: Config, s: Shell, e: ProtocolError, reply: Reply)
    ensures Apply(s, GrantCalls(cfg, Failed(e), reply)).locals == s.locals
    ensures GrantReply(cfg, Failed(e), reply) == reply
  {
    if cfg.useErrorHandler {
      ErrorForwarded(s, e, Some(reply.headers));
    } else {
      ErrorRendered(s, e, Some(reply.headers));
    }
  }
}
