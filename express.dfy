/**
 * The web framework's response object and the `next` hook of its handler chain,
 * reduced to the calls the adapter makes on them: `res.set(headers)`,
 * `res.status(code)`, `res.send(body)`, `res.redirect(location)`, the assignment
 * `res.locals.oauth = ...` and `next(arg)`. Each call is a plain update of the
 * response's state, and the response also keeps the history of calls in order.
 */
module Express {
  import opened Wrappers
  import opened Js
  import opened Engine

  /** What `res.send` was given: nothing, the adapter's error object, or the engine's body. */
  datatype Body =
    | Empty
    | ErrorObject(error: string, errorDescription: string)
    | Payload(value: JsValue)

  /** The value the adapter assigns to `res.locals.oauth`: `{token}` or `{code}`. */
  datatype OAuthLocals = TokenLocals(token: Token) | CodeLocals(code: AuthorizationCode)

  /** One call made on the response or on the chain hook. */
  datatype Effect =
    | SetHeaders(fields: Headers)
    | SetStatus(code: int)
    | Send(body: Body)
    | Redirect(location: Option<string>)
    | SetLocals(oauth: OAuthLocals)
    | CallNext(arg: Option<ProtocolError>)
  {
    /** A call that writes HTTP output: a header, the status, the body or a redirect. */
    predicate Writes() {
      SetHeaders? || SetStatus? || Send? || Redirect?
    }

    /** A call that decides the status line or body, after which headers must not change. */
    predicate Finalizes() {
      SetStatus? || Send? || Redirect?
    }

    /** A call that ends the response. */
    predicate Ends() {
      Send? || Redirect?
    }
  }

  /**
   * The state of one framework response. `redirect` is None until `res.redirect` is
   * called, and then holds its argument (None when that argument was undefined).
   * `history` lists every call made, oldest first.
   */
  datatype Shell = Shell(
    headers: Headers,
    status: Option<int>,
    body: Option<Body>,
    redirect: Option<Option<string>>,
    locals: Option<OAuthLocals>,
    history: seq<Effect>)

  /** A response nobody has written to yet. */
  const Untouched := Shell(map[], None, None, None, None, [])

  /**
   * The effect of one call on the response. `res.set` merges the given headers over
   * the present ones (the incoming value wins); `next` changes nothing but the history.
   */
  function Step(s: Shell, e: Effect): (r: Shell)
    ensures r.history == s.history + [e]
    ensures !e.SetHeaders? ==> r.headers == s.headers
    ensures !e.SetStatus? ==> r.status == s.status
    ensures !e.Send? ==> r.body == s.body
    ensures !e.Redirect? ==> r.redirect == s.redirect
    ensures !e.SetLocals? ==> r.locals == s.locals
  {
    match e
    case SetHeaders(fields) => s.(headers := s.headers + fields, history := s.history + [e])
    case SetStatus(code) => s.(status := Some(code), history := s.history + [e])
    case Send(body) => s.(body := Some(body), history := s.history + [e])
    case Redirect(location) => s.(redirect := Some(location), history := s.history + [e])
    case SetLocals(oauth) => s.(locals := Some(oauth), history := s.history + [e])
    case CallNext(_) => s.(history := s.history + [e])
  }

  /** The effect of a list of calls made one after the other. */
  function Apply(s: Shell, calls: seq<Effect>): Shell
    decreases |calls|
  {
    if calls == [] then s else Apply(Step(s, calls[0]), calls[1..])
  }

  /** The arguments `next` received, in order, read off a call history (None is a bare `next()`). */
  function NextArgs(history: seq<Effect>): (args: seq<Option<ProtocolError>>)
    ensures |args| <= |history|
    ensures forall a :: a in args <==> CallNext(a) in history
  {
    if history == [] then []
    else (if history[0].CallNext? then [history[0].arg] else []) + NextArgs(history[1..])
  }

  lemma {:induction false} NextArgsAppend(a: seq<Effect>, b: seq<Effect>)
    ensures NextArgs(a + b) == NextArgs(a) + NextArgs(b)
    decreases |a|
  {
    if a == [] {
      assert a + b == b;
    } else {
      assert (a + b)[0] == a[0];
      assert (a + b)[1..] == a[1..] + b;
      NextArgsAppend(a[1..], b);
    }
  }

  /** A history without a call to `next` gives `next` no arguments. */
  lemma {:induction false} NextArgsNone(history: seq<Effect>)
    requires forall i :: 0 <= i < |history| ==> !history[i].CallNext?
    ensures NextArgs(history) == []
    decreases |history|
  {
    if history != [] {
      assert !history[0].CallNext?;
      NextArgsNone(history[1..]);
    }
  }

  /** Making one more call after a list of calls is the same as applying the longer list. */
  lemma {:induction false} ApplySnoc(s: Shell, calls: seq<Effect>, e: Effect)
    ensures Apply(s, calls + [e]) == Step(Apply(s, calls), e)
    decreases |calls|
  {
    if calls == [] {
      assert calls + [e] == [e];
      assert [e][1..] == [];
    } else {
      assert (calls + [e])[0] == calls[0];
      assert (calls + [e])[1..] == calls[1..] + [e];
      ApplySnoc(Step(s, calls[0]), calls[1..], e);
    }
  }

  /** Applying two lists of calls one after the other is applying their concatenation. */
  lemma {:induction false} ApplyConcat(s: Shell, a: seq<Effect>, b: seq<Effect>)
    ensures Apply(s, a + b) == Apply(Apply(s, a), b)
    decreases |a|
  {
    if a == [] {
      assert a + b == b;
    } else {
      assert (a + b)[0] == a[0];
      assert (a + b)[1..] == a[1..] + b;
      ApplyConcat(Step(s, a[0]), a[1..], b);
    }
  }

  lemma ApplyPair(s: Shell, a: Effect, b: Effect)
    ensures Apply(s, [a, b]) == Step(Step(s, a), b)
  {
    ApplySnoc(s, [], a);
    ApplySnoc(s, [a], b);
    assert [a] + [b] == [a, b];
  }

  lemma ApplyTriple(s: Shell, a: Effect, b: Effect, c: Effect)
    ensures Apply(s, [a, b, c]) == Step(Step(Step(s, a), b), c)
  {
    ApplyPair(s, a, b);
    ApplySnoc(s, [a, b], c);
    assert [a, b] + [c] == [a, b, c];
  }

  /** The history after a list of calls is the old history followed by exactly those calls. */
  lemma {:induction false} ApplyHistory(s: Shell, calls: seq<Effect>)
    ensures Apply(s, calls).history == s.history + calls
    decreases |calls|
  {
    if calls != [] {
      ApplyHistory(Step(s, calls[0]), calls[1..]);
      assert [calls[0]] + calls[1..] == calls;
    }
  }

  /** The framework response object (`res`) together with the chain hook (`next`) of one request. */
  class FrameworkResponse {
    var headers: Headers
    var status: Option<int>
    var body: Option<Body>
    var redirect: Option<Option<string>>
    var locals: Option<OAuthLocals>
    var history: seq<Effect>

    function Snapshot(): Shell
      reads this
    {
      Shell(headers, status, body, redirect, locals, history)
    }

    constructor ()
      ensures Snapshot() == Untouched
    {
      headers, status, body, redirect, locals, history := map[], None, None, None, None, [];
    }

    /** `res.set(fields)`. */
    method Set(fields: Headers)
      modifies this
      ensures Snapshot() == Step(old(Snapshot()), SetHeaders(fields))
    {
      headers := headers + fields;
      history := history + [SetHeaders(fields)];
    }

    /** `res.status(code)`. */
    method Status(code: int)
      modifies this
      ensures Snapshot() == Step(old(Snapshot()), SetStatus(code))
    {
      status := Some(code);
      history := history + [SetStatus(code)];
    }

    /** `res.send(b)`; `res.send()` is `Send(Empty)`. */
    method Send(b: Body)
      modifies this
      ensures Snapshot() == Step(old(Snapshot()), Effect.Send(b))
    {
      body := Some(b);
      history := history + [Effect.Send(b)];
    }

    /** `res.redirect(location)`. */
    method RedirectTo(location: Option<string>)
      modifies this
      ensures Snapshot() == Step(old(Snapshot()), Redirect(location))
    {
      redirect := Some(location);
      history := history + [Redirect(location)];
    }

    /** `res.locals.oauth = oauth`. */
    method SetOAuthLocals(oauth: OAuthLocals)
      modifies this
      ensures Snapshot() == Step(old(Snapshot()), SetLocals(oauth))
    {
      locals := Some(oauth);
      history := history + [SetLocals(oauth)];
    }

    /** `next()` when `arg` is None, `next(e)` when it is Some(e). */
    method Next(arg: Option<ProtocolError>)
      modifies this
      ensures Snapshot() == Step(old(Snapshot()), CallNext(arg))
    {
      history := history + [CallNext(arg)];
    }
  }
}
