/** secure/csrf/csrf.go: the middleware. `Serve` states, as a function of the configuration, the
    request, the random bytes still to come and the clock, everything one `ServeHTTP` call does;
    `Handler.ServeHTTP` does it step by step and is proved to agree. */
module Csrf {
  import opened Wrappers
  import opened GoTypes
  import opened Http
  import opened SecureCookie
  import opened CsrfDefs
  import opened CsrfHelpers
  import opened CsrfToken
  import opened CsrfCookie
  import opened CsrfContext
  import opened Helpers
  import Base64

  /** Why a call ended in a Go panic instead of a handler. */
  datatype PanicCause =
    | NilCookieConfig      // `baseCookie` is nil: `SetCookieOptions` was never called
    | ErrDescWithoutToken  // `setReqErrDesc` found no token in the context and called `logging.Panic`

  /** How a `ServeHTTP` call ends: in the success handler, in the failure handler with the reason
      recorded in the context, or in a panic before either handler runs. */
  datatype Outcome = Succeeded | Failed(reason: CsrfError) | Panicked(cause: PanicCause)

  /** Everything one call produces: the outcome, the response headers it adds, the final context and
      the random bytes left over. */
  datatype Served = Served(
    outcome: Outcome,
    written: seq<HeaderLine>,
    token: Bytes,
    errDesc: Option<CsrfError>,
    rest: seq<Chunk>)

  /** `setReqErrDesc(r, reason)` followed by `handleFailure`, with the context holding `token`. */
  function Reject(token: Bytes, reason: CsrfError, written: seq<HeaderLine>, rest: seq<Chunk>): (s: Served)
    ensures s.written == written && s.token == token && s.rest == rest
    ensures s.outcome.Panicked? <==> token == []
    ensures token == [] ==> s.outcome == Panicked(ErrDescWithoutToken) && s.errDesc == None
    ensures token != [] ==> s.outcome == Failed(reason) && s.errDesc == Some(reason)
  {
    if token == [] then Served(Panicked(ErrDescWithoutToken), written, token, None, rest)
    else Served(Failed(reason), written, token, Some(reason), rest)
  }

  /** The real token after lines 116-140: the one in a valid cookie, or a fresh one that has been set
      (with the headers that wrote it), or none because generating or setting it failed. */
  datatype RealToken =
    | Resolved(realToken: Bytes, written: seq<HeaderLine>, rest: seq<Chunk>)
    | Unresolved(rest: seq<Chunk>)

  function ResolveRealToken(c: CookieConfig, req: Request, pending: seq<Chunk>, now: int): (r: RealToken)
    ensures r.Resolved? ==> |r.realToken| == TokenLength
  {
    var got := c.Get(req);
    if got.Success? && |got.value| == TokenLength then Resolved(got.value, [], pending)
    else
      var d := Draw(pending, TokenLength);
      if d.err.Some? then Unresolved(d.rest)
      else match c.NewCookie(d.bytes, now)
        case Failure(_) => Unresolved(d.rest)
        case Success(cookie) =>
          Resolved(d.bytes, if ValidCookieName(c.name) then [SetCookie(cookie)] else [], d.rest)
  }

  /** What lines 145-185 decide once the token is in the context. */
  datatype Verdict = Exempt | Pass | Refuse(reason: CsrfError)

  function Check(exemptMethods: seq<string>, req: Request, realToken: Bytes): (v: Verdict)
    ensures v == Exempt <==> StringInSlice(exemptMethods, req.verb)
    ensures v.Refuse? ==> v.reason in {NoReferer, NoToken, BadToken}
    ensures v == Pass <==>
      !StringInSlice(exemptMethods, req.verb) &&
      (req.url.scheme != "https" || (req.referer.Some? && SameOrigin(req.referer.value, req.url))) &&
      GetTokenFromRequest(req).Success? && Unmask(GetTokenFromRequest(req).value) == realToken
  {
    if StringInSlice(exemptMethods, req.verb) then Exempt
    else if req.url.scheme == "https" && (req.referer.None? || !SameOrigin(req.referer.value, req.url))
    then Refuse(NoReferer)
    else match GetTokenFromRequest(req)
      case Failure(_) => Refuse(NoToken)
      case Success(sent) => if CompareTokens(Unmask(sent), realToken) then Pass else Refuse(BadToken)
  }

  /** One `ServeHTTP` call. */
  function Serve(baseCookie: Option<CookieConfig>, exemptMethods: seq<string>, req: Request,
                 pending: seq<Chunk>, now: int): (s: Served)
    ensures |s.written| > 0 && s.written[0] == VaryCookie
    ensures s.outcome == Panicked(NilCookieConfig) <==> baseCookie.None?
    ensures s.outcome.Failed? ==> s.errDesc == Some(s.outcome.reason)
    ensures s.errDesc.Some? ==> s.outcome.Failed? && s.token != []
  {
    if baseCookie.None? then Served(Panicked(NilCookieConfig), [VaryCookie], [], None, pending)
    else match ResolveRealToken(baseCookie.value, req, pending, now)
      case Unresolved(rest) => Reject([], ServerIssue, [VaryCookie], rest)
      case Resolved(realToken, cookies, rest) => Continue(exemptMethods, req, realToken, [VaryCookie] + cookies, rest)
  }

  /** Lines 142-190, once the real token is known: mask it into the context, then decide. */
  function Continue(exemptMethods: seq<string>, req: Request, realToken: Bytes,
                    written: seq<HeaderLine>, pending: seq<Chunk>): (s: Served)
    ensures s.outcome == Succeeded <==> !Check(exemptMethods, req, realToken).Refuse?
    ensures s.outcome.Failed? ==> s.errDesc == Some(s.outcome.reason)
    ensures s.errDesc.Some? ==> s.outcome.Failed? && s.token != []
    ensures s.rest == Draw(pending, TokenLength).rest
    ensures Draw(pending, TokenLength).err.Some? <==> s.token == []
  {
    var pad := Draw(pending, TokenLength);
    var token := Base64.Encode(if pad.err.Some? then [] else Mask(pad.bytes, realToken));
    match Check(exemptMethods, req, realToken)
    case Exempt => Served(Succeeded, written, token, None, pad.rest)
    case Pass => Served(Succeeded, written + [VaryCookie], token, None, pad.rest)
    case Refuse(reason) => Reject(token, reason, written, pad.rest)
  }

  /** The headers `Continue` adds do not depend on the ones written before it. */
  lemma ContinueAfter(exemptMethods: seq<string>, req: Request, realToken: Bytes,
                      written: seq<HeaderLine>, pending: seq<Chunk>)
    ensures var s := Continue(exemptMethods, req, realToken, [], pending);
      Continue(exemptMethods, req, realToken, written, pending) == s.(written := written + s.written)
  {
  }

  /** `Serve` when minting or setting the real token failed. */
  lemma ServeUnresolved(c: CookieConfig, exemptMethods: seq<string>, req: Request, pending: seq<Chunk>, now: int)
    requires ResolveRealToken(c, req, pending, now).Unresolved?
    ensures Serve(Some(c), exemptMethods, req, pending, now)
         == Reject([], ServerIssue, [VaryCookie], ResolveRealToken(c, req, pending, now).rest)
  {
  }

  /** `Serve` once the real token is known. */
  lemma ServeResolved(c: CookieConfig, exemptMethods: seq<string>, req: Request, pending: seq<Chunk>, now: int)
    requires ResolveRealToken(c, req, pending, now).Resolved?
    ensures var r := ResolveRealToken(c, req, pending, now);
      Serve(Some(c), exemptMethods, req, pending, now)
        == Continue(exemptMethods, req, r.realToken, [VaryCookie] + r.written, r.rest)
  {
  }

  /** `Handler`: the wrapped handler, the failure handler, the cookie settings and the exemptions. */
  class Handler {
    var success: HttpHandler
    var failure: HttpHandler
    var baseCookie: Option<CookieConfig>
    /** Declared and never read. */
    var exemptPaths: seq<string>
    var exemptMethods: seq<string>

    /** `New(handler)`: the 400 failure handler, no cookie settings, the default exempt methods. */
    constructor New(handler: HttpHandler)
      ensures success == handler && failure == DefaultFailureHandler
      ensures baseCookie == None && exemptPaths == [] && exemptMethods == ExemptMethods
    {
      success := handler;
      failure := DefaultFailureHandler;
      baseCookie := None;
      exemptPaths := [];
      exemptMethods := ExemptMethods;
    }

    /** `SetCookieOptions(...)`: replaces the cookie settings; the codec is `securecookie.New(authKey, nil)`. */
    method SetCookieOptions(name: string, maxAge: Int, secure: bool, httpOnly: bool, path: string,
                            domain: string, authKey: Bytes)
      modifies this`baseCookie
      ensures baseCookie == Some(CookieConfig(name, maxAge, secure, httpOnly, path, domain, Codec(authKey)))
    {
      baseCookie := Some(CookieConfig(name, maxAge, secure, httpOnly, path, domain, Codec(authKey)));
    }

    /** `SetFailureHandler(f)`. */
    method SetFailureHandler(failureHandler: HttpHandler)
      modifies this`failure
      ensures failure == failureHandler
    {
      failure := failureHandler;
    }

    /** `setReqErrDesc` then `handleFailure`: the failure handler runs unless the context has no token. */
    method FailWith(ctx: Context, reason: CsrfError) returns (outcome: Outcome, invoked: Option<HttpHandler>)
      modifies ctx
      ensures var s := Reject(old(ctx.token), reason, [], []);
        outcome == s.outcome && ctx.token == old(ctx.token) &&
        ctx.errDesc == (if outcome.Panicked? then old(ctx.errDesc) else s.errDesc)
      ensures invoked == if outcome.Panicked? then None else Some(failure)
    {
      var panicked := ctx.SetReqErrDesc(reason);
      if panicked {
        return Panicked(ErrDescWithoutToken), None;
      }
      return Failed(reason), Some(failure);
    }

    /** Lines 116-140 of `ServeHTTP`: the token of a valid cookie, or a fresh one that `Set` has written
        into the response; None when generating or setting it failed (a server issue). */
    method ObtainRealToken(c: CookieConfig, req: Request, w: ResponseWriter, rng: RandomSource, now: int)
      returns (realToken: Option<Bytes>)
      modifies w, rng
      ensures var r := ResolveRealToken(c, req, old(rng.pending), now);
        rng.pending == r.rest &&
        (r.Resolved? ==> realToken == Some(r.realToken) && w.headers == old(w.headers) + r.written) &&
        (r.Unresolved? ==> realToken.None? && w.headers == old(w.headers))
    {
      var got := c.Get(req);
      if got.Failure? || |got.value| != TokenLength {
        var minted, err := GenerateSecureBytes(TokenLength, rng);
        if err.Some? {
          return None;
        }
        err := c.Set(minted, w, now);
        if err.Some? {
          return None;
        }
        return Some(minted);
      }
      return Some(got.value);
    }

    /** Lines 145-190 of `ServeHTTP`, with the masked token already in the context: the exempt
        shortcut, the Referer check for https, then the token comparison. */
    method Decide(ctx: Context, req: Request, realToken: Bytes, w: ResponseWriter)
      returns (outcome: Outcome, invoked: Option<HttpHandler>)
      modifies ctx, w
      ensures ctx.token == old(ctx.token)
      ensures match Check(exemptMethods, req, realToken)
        case Exempt =>
          outcome == Succeeded && w.headers == old(w.headers) && ctx.errDesc == old(ctx.errDesc)
        case Pass =>
          outcome == Succeeded && w.headers == old(w.headers) + [VaryCookie] && ctx.errDesc == old(ctx.errDesc)
        case Refuse(reason) =>
          var s := Reject(old(ctx.token), reason, [], []);
          outcome == s.outcome && w.headers == old(w.headers) &&
          ctx.errDesc == (if outcome.Panicked? then old(ctx.errDesc) else s.errDesc)
      ensures invoked == match outcome
        case Succeeded => Some(success)
        case Failed(_) => Some(failure)
        case Panicked(_) => None
    {
      if StringInSlice(exemptMethods, req.verb) {
        return Succeeded, Some(success);
      }
      if req.url.scheme == "https" {
        if req.referer.None? {
          outcome, invoked := FailWith(ctx, NoReferer);
          return;
        }
        if !SameOrigin(req.referer.value, req.url) {
          outcome, invoked := FailWith(ctx, NoReferer);
          return;
        }
      }
      var sent := GetTokenFromRequest(req);
      if sent.Failure? {
        outcome, invoked := FailWith(ctx, NoToken);
        return;
      }
      var unmasked := Unmask(sent.value);
      if !CompareTokens(unmasked, realToken) {
        outcome, invoked := FailWith(ctx, BadToken);
        return;
      }
      w.headers := w.headers + [VaryCookie];
      return Succeeded, Some(success);
    }

    /** Lines 142-190 of `ServeHTTP`: mask the real token into the fresh context, then decide. */
    method MaskAndDecide(ctx: Context, req: Request, realToken: Bytes, w: ResponseWriter, rng: RandomSource)
      returns (outcome: Outcome, invoked: Option<HttpHandler>)
      requires ctx.token == [] && ctx.errDesc == None
      modifies ctx, w, rng
      ensures var s := Continue(exemptMethods, req, realToken, [], old(rng.pending));
        outcome == s.outcome && w.headers == old(w.headers) + s.written &&
        ctx.token == s.token && ctx.errDesc == s.errDesc && rng.pending == s.rest
      ensures invoked == match outcome
        case Succeeded => Some(success)
        case Failed(_) => Some(failure)
        case Panicked(_) => None
    {
      var masked := MaskToken(realToken, rng);
      ctx.SetReqToken(masked);
      outcome, invoked := Decide(ctx, req, realToken, w);
    }

    /** The rest of the call once the real token is resolved and `head` is written: what `Continue`
        does from there. */
    method Finish(ctx: Context, req: Request, realToken: Bytes, w: ResponseWriter, rng: RandomSource,
                  ghost before: seq<HeaderLine>, ghost head: seq<HeaderLine>)
      returns (outcome: Outcome, invoked: Option<HttpHandler>)
      requires w.headers == before + head
      requires ctx.token == [] && ctx.errDesc == None
      modifies ctx, w, rng
      ensures var s := Continue(exemptMethods, req, realToken, head, old(rng.pending));
        outcome == s.outcome && w.headers == before + s.written &&
        ctx.token == s.token && ctx.errDesc == s.errDesc && rng.pending == s.rest
      ensures invoked == match outcome
        case Succeeded => Some(success)
        case Failed(_) => Some(failure)
        case Panicked(_) => None
    {
      ContinueAfter(exemptMethods, req, realToken, head, rng.pending);
      outcome, invoked := MaskAndDecide(ctx, req, realToken, w, rng);
    }

    /** Lines 116-190 of `ServeHTTP`, with cookie settings present and `Vary` already added. */
    method Protect(c: CookieConfig, ctx: Context, req: Request, w: ResponseWriter, rng: RandomSource, now: int,
                   ghost before: seq<HeaderLine>)
      returns (outcome: Outcome, invoked: Option<HttpHandler>)
      requires w.headers == before + [VaryCookie] && ctx.token == [] && ctx.errDesc == None
      modifies ctx, w, rng
      ensures var s := Serve(Some(c), exemptMethods, req, old(rng.pending), now);
        outcome == s.outcome && w.headers == before + s.written &&
        ctx.token == s.token && ctx.errDesc == s.errDesc && rng.pending == s.rest
      ensures invoked == match outcome
        case Succeeded => Some(success)
        case Failed(_) => Some(failure)
        case Panicked(_) => None
    {
      ghost var pending := rng.pending;
      var realToken := ObtainRealToken(c, req, w, rng, now);
      if realToken.None? {
        ServeUnresolved(c, exemptMethods, req, pending, now);
        outcome, invoked := FailWith(ctx, ServerIssue);
        return;
      }
      ServeResolved(c, exemptMethods, req, pending, now);
      ghost var r := ResolveRealToken(c, req, pending, now);
      outcome, invoked := Finish(ctx, req, realToken.value, w, rng, before, [VaryCookie] + r.written);
    }

    /** `ServeHTTP(w, r)`: returns how the call ended, which handler it invoked, and the context the
        handlers saw. */
    method ServeHTTP(w: ResponseWriter, req: Request, rng: RandomSource, now: int)
      returns (outcome: Outcome, invoked: Option<HttpHandler>, ctx: Context)
      modifies w, rng
      ensures fresh(ctx)
      ensures var s := Serve(baseCookie, exemptMethods, req, old(rng.pending), now);
        outcome == s.outcome && w.headers == old(w.headers) + s.written &&
        ctx.token == s.token && ctx.errDesc == s.errDesc && rng.pending == s.rest
      ensures invoked == match outcome
        case Succeeded => Some(success)
        case Failed(_) => Some(failure)
        case Panicked(_) => None
    {
      ctx := new Context();
      ghost var before := w.headers;
      w.headers := w.headers + [VaryCookie];
      if baseCookie.None? {
        return Panicked(NilCookieConfig), None, ctx;
      }
      outcome, invoked := Protect(baseCookie.value, ctx, req, w, rng, now, before);
    }
  }
}
