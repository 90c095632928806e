/** What one `ServeHTTP` call guarantees, stated about `Csrf.Serve` (which `Handler.ServeHTTP` is
    proved to follow) for every configuration, request, random source and clock. */
module CsrfProperties {
  import opened Wrappers
  import opened GoTypes
  import opened Http
  import opened CsrfDefs
  import opened CsrfHelpers
  import opened CsrfToken
  import opened CsrfCookie
  import opened Helpers
  import opened Csrf
  import Base64

  /** The number of `Vary: Cookie` lines among some response headers. */
  function VaryCount(hs: seq<HeaderLine>): nat
  {
    if hs == [] then 0 else (if hs[0] == VaryCookie then 1 else 0) + VaryCount(hs[1..])
  }

  /** The cookies among some response headers, in order. */
  function CookiesSet(hs: seq<HeaderLine>): seq<Cookie>
  {
    if hs == [] then [] else (if hs[0].SetCookie? then [hs[0].cookie] else []) + CookiesSet(hs[1..])
  }

  lemma {:induction false} CountsAppend(a: seq<HeaderLine>, b: seq<HeaderLine>)
    ensures VaryCount(a + b) == VaryCount(a) + VaryCount(b)
    ensures CookiesSet(a + b) == CookiesSet(a) + CookiesSet(b)
  {
    if a != [] {
      assert (a + b)[0] == a[0] && (a + b)[1..] == a[1..] + b;
      CountsAppend(a[1..], b);
    } else {
      assert a + b == b;
    }
  }

  /** After the real token is known: the headers added and how the outcome follows the verdict. */
  lemma ContinueShape(exemptMethods: seq<string>, req: Request, realToken: Bytes,
                      written: seq<HeaderLine>, pending: seq<Chunk>)
    ensures var s := Continue(exemptMethods, req, realToken, written, pending);
      var v := Check(exemptMethods, req, realToken);
      s.written == written + (if v == Pass then [VaryCookie] else []) &&
      (s.outcome == Succeeded <==> !v.Refuse?) &&
      (v.Refuse? ==> s == Reject(s.token, v.reason, written, s.rest)) &&
      (!v.Refuse? ==> s.errDesc == None) &&
      (v == Pass <==> s.outcome == Succeeded && !StringInSlice(exemptMethods, req.verb))
  {
  }

  /** A request whose Referer passes the check of lines 153-168. */
  predicate OriginAccepted(req: Request)
  {
    req.url.scheme != "https" || (req.referer.Some? && SameOrigin(req.referer.value, req.url))
  }

  /** A `Vary: Cookie` header comes first on every call, before any branch (line 114); only a
      non-exempt request that passes every check gets a second one (line 188). At most one cookie
      is written. */
  lemma VaryHeaders(baseCookie: Option<CookieConfig>, exemptMethods: seq<string>, req: Request,
                    pending: seq<Chunk>, now: int)
    ensures var s := Serve(baseCookie, exemptMethods, req, pending, now);
      |s.written| > 0 && s.written[0] == VaryCookie &&
      VaryCount(s.written) == (if s.outcome == Succeeded && !StringInSlice(exemptMethods, req.verb) then 2 else 1) &&
      |CookiesSet(s.written)| <= 1
  {
    if baseCookie.Some? {
      var c := baseCookie.value;
      var r := ResolveRealToken(c, req, pending, now);
      if r.Resolved? {
        var w := [VaryCookie] + r.written;
        ServeResolved(c, exemptMethods, req, pending, now);
        ContinueShape(exemptMethods, req, r.realToken, w, r.rest);
        CountsAppend([VaryCookie], r.written);
        CountsAppend(w, [VaryCookie]);
        assert VaryCount(r.written) == 0 && |CookiesSet(r.written)| == |r.written|;
      }
    }
  }

  /** A new real token is generated and set only when `Get` fails or yields a token of the wrong
      length; a valid cookie is never rewritten. The cookie written is the one `Set` builds, and
      none is written for a cookie name net/http refuses. */
  lemma CookieSetOnlyWhenInvalid(c: CookieConfig, exemptMethods: seq<string>, req: Request,
                                 pending: seq<Chunk>, now: int)
    ensures var s := Serve(Some(c), exemptMethods, req, pending, now);
      var got := c.Get(req);
      var d := Draw(pending, TokenLength);
      CookiesSet(s.written) ==
        if got.Success? && |got.value| == TokenLength then []
        else if d.err.None? && c.NewCookie(d.bytes, now).Success? && ValidCookieName(c.name)
        then [c.NewCookie(d.bytes, now).value]
        else []
  {
    var r := ResolveRealToken(c, req, pending, now);
    if r.Resolved? {
      var w := [VaryCookie] + r.written;
      ServeResolved(c, exemptMethods, req, pending, now);
      ContinueShape(exemptMethods, req, r.realToken, w, r.rest);
      CountsAppend([VaryCookie], r.written);
      CountsAppend(w, [VaryCookie]);
    }
  }

  /** With a cookie name net/http refuses (empty, or holding a space, a comma and the like), `Set`
      succeeds but writes nothing and `Get` never finds the cookie: every call checks against a real
      token freshly drawn from the random source, which the client cannot know unless the source
      repeats itself. */
  lemma InvalidCookieNameNeverPersists(c: CookieConfig, exemptMethods: seq<string>, req: Request,
                                       pending: seq<Chunk>, now: int)
    requires !ValidCookieName(c.name)
    ensures c.Get(req) == Failure(NoCookie)
    ensures CookiesSet(Serve(Some(c), exemptMethods, req, pending, now).written) == []
    ensures var r := ResolveRealToken(c, req, pending, now);
      var d := Draw(pending, TokenLength);
      (r.Resolved? <==> d.err.None? && c.NewCookie(d.bytes, now).Success?) &&
      (r.Resolved? ==> r.realToken == d.bytes && r.written == [])
  {
    CookieSetOnlyWhenInvalid(c, exemptMethods, req, pending, now);
  }

  /** When the random source or `Set` fails, `setReqErrDesc` runs before any token is in the context:
      the call panics, no handler runs and no reason is recorded (`ErrServerIssue` is never seen). */
  lemma ServerIssuePanics(c: CookieConfig, exemptMethods: seq<string>, req: Request,
                          pending: seq<Chunk>, now: int)
    requires c.Get(req).Failure? || |c.Get(req).value| != TokenLength
    requires Draw(pending, TokenLength).err.Some? ||
             c.NewCookie(Draw(pending, TokenLength).bytes, now).Failure?
    ensures var s := Serve(Some(c), exemptMethods, req, pending, now);
      s.outcome == Panicked(ErrDescWithoutToken) && s.token == [] && s.errDesc == None &&
      s.written == [VaryCookie]
  {
  }

  /** A failure always carries its reason in the context next to a non-empty token, the reason is one
      of `ErrNoReferer`, `ErrNoToken`, `ErrBadToken` (never `ErrServerIssue`, and `ErrBadReferer` is
      never used), and any other ending leaves no reason behind. */
  lemma FailureReasons(baseCookie: Option<CookieConfig>, exemptMethods: seq<string>, req: Request,
                       pending: seq<Chunk>, now: int)
    ensures var s := Serve(baseCookie, exemptMethods, req, pending, now);
      (s.outcome.Failed? ==>
        s.token != [] && s.errDesc == Some(s.outcome.reason) &&
        s.outcome.reason in {NoReferer, NoToken, BadToken}) &&
      (!s.outcome.Failed? ==> s.errDesc == None) &&
      (s.errDesc.Some? ==> s.token != [])
  {
    if baseCookie.Some? {
      var c := baseCookie.value;
      var r := ResolveRealToken(c, req, pending, now);
      if r.Resolved? {
        ServeResolved(c, exemptMethods, req, pending, now);
        ContinueShape(exemptMethods, req, r.realToken, [VaryCookie] + r.written, r.rest);
        var v := Check(exemptMethods, req, r.realToken);
        assert v.Refuse? ==> v.reason in {NoReferer, NoToken, BadToken};
      }
    }
  }

  /** An exempt method reaches the success handler whatever its Referer or token, and the context
      already holds the twice-encoded masked token. */
  lemma ExemptMethodsSucceed(c: CookieConfig, exemptMethods: seq<string>, req: Request,
                             pending: seq<Chunk>, now: int)
    requires StringInSlice(exemptMethods, req.verb)
    requires ResolveRealToken(c, req, pending, now).Resolved?
    ensures var s := Serve(Some(c), exemptMethods, req, pending, now);
      var r := ResolveRealToken(c, req, pending, now);
      var pad := Draw(r.rest, TokenLength);
      s.outcome == Succeeded && s.errDesc == None &&
      (pad.err.None? ==> s.token == Base64.Encode(Mask(pad.bytes, r.realToken)) && s.token != [])
  {
    var r := ResolveRealToken(c, req, pending, now);
    var pad := Draw(r.rest, TokenLength);
    if pad.err.None? {
      MaskRoundTrip(pad.bytes, r.realToken);
    }
  }

  /** The default exempt list is GET, HEAD, CONNECT and TRACE. It is not the list of safe methods of
      section 4.2.1 of RFC 7231 (GET, HEAD, OPTIONS, TRACE): OPTIONS is checked, CONNECT is not. */
  lemma DefaultExemptMethods(m: string)
    ensures StringInSlice(ExemptMethods, m) <==> m == "GET" || m == "HEAD" || m == "CONNECT" || m == "TRACE"
    ensures !StringInSlice(ExemptMethods, "OPTIONS") && StringInSlice(ExemptMethods, "CONNECT")
  {
    assert ExemptMethods[0] == "GET" && ExemptMethods[1] == "HEAD";
    assert ExemptMethods[2] == "CONNECT" && ExemptMethods[3] == "TRACE";
  }

  /** A non-exempt https request whose Referer does not parse, is absent (it parses to the empty URL)
      or names another scheme or host fails with `ErrNoReferer`, whatever its token; the call panics
      instead when no pad could be drawn for the context token. */
  lemma HttpsRefererEnforced(c: CookieConfig, exemptMethods: seq<string>, req: Request,
                             pending: seq<Chunk>, now: int)
    requires !StringInSlice(exemptMethods, req.verb) && req.url.scheme == "https"
    requires req.referer.None? || !SameOrigin(req.referer.value, req.url)
    requires ResolveRealToken(c, req, pending, now).Resolved?
    ensures var s := Serve(Some(c), exemptMethods, req, pending, now);
      var pad := Draw(ResolveRealToken(c, req, pending, now).rest, TokenLength);
      s.outcome == if pad.err.None? then Failed(NoReferer) else Panicked(ErrDescWithoutToken)
    ensures !SameOrigin(EmptyUrl, req.url)
  {
    var r := ResolveRealToken(c, req, pending, now);
    var pad := Draw(r.rest, TokenLength);
    if pad.err.None? {
      MaskRoundTrip(pad.bytes, r.realToken);
    }
  }

  /** A request that is not https is never judged by its Referer. */
  lemma PlainHttpIgnoresReferer(baseCookie: Option<CookieConfig>, exemptMethods: seq<string>, req: Request,
                                pending: seq<Chunk>, now: int, referer: Option<Url>)
    requires req.url.scheme != "https"
    ensures Serve(baseCookie, exemptMethods, req, pending, now)
         == Serve(baseCookie, exemptMethods, req.(referer := referer), pending, now)
  {
    var req' := req.(referer := referer);
    if baseCookie.Some? {
      var c := baseCookie.value;
      assert c.Get(req) == c.Get(req');
      var r := ResolveRealToken(c, req, pending, now);
      assert r == ResolveRealToken(c, req', pending, now);
      if r.Resolved? {
        ServeResolved(c, exemptMethods, req, pending, now);
        ServeResolved(c, exemptMethods, req', pending, now);
        assert GetTokenFromRequest(req) == GetTokenFromRequest(req');
        assert Check(exemptMethods, req, r.realToken) == Check(exemptMethods, req', r.realToken);
      }
    }
  }

  /** Past the exempt and Referer checks the submitted token decides: `ErrNoToken` exactly when it
      is not valid base64url, otherwise success exactly when it unmasks to the real token and
      `ErrBadToken` exactly when it does not. */
  lemma TokenDecides(c: CookieConfig, exemptMethods: seq<string>, req: Request,
                     pending: seq<Chunk>, now: int)
    requires !StringInSlice(exemptMethods, req.verb) && OriginAccepted(req)
    requires ResolveRealToken(c, req, pending, now).Resolved?
    requires Draw(ResolveRealToken(c, req, pending, now).rest, TokenLength).err.None?
    ensures var s := Serve(Some(c), exemptMethods, req, pending, now);
      var realToken := ResolveRealToken(c, req, pending, now).realToken;
      var sent := GetTokenFromRequest(req);
      (s.outcome == Failed(NoToken) <==> sent.Failure?) &&
      (s.outcome == Succeeded <==> sent.Success? && Unmask(sent.value) == realToken) &&
      (s.outcome == Failed(BadToken) <==> sent.Success? && Unmask(sent.value) != realToken)
  {
    var r := ResolveRealToken(c, req, pending, now);
    var pad := Draw(r.rest, TokenLength);
    MaskRoundTrip(pad.bytes, r.realToken);
  }

  /** `ErrNoToken` arises only when the token `getTokenFromRequest` picked fails to decode, for every
      input. */
  lemma NoTokenOnlyFromDecodeError(baseCookie: Option<CookieConfig>, exemptMethods: seq<string>, req: Request,
                                   pending: seq<Chunk>, now: int)
    ensures Serve(baseCookie, exemptMethods, req, pending, now).outcome == Failed(NoToken) ==>
      GetTokenFromRequest(req).Failure?
    ensures Serve(baseCookie, exemptMethods, req, pending, now).outcome == Failed(NoToken) ==>
      Base64.Decode(req.headerToken).None? || Base64.Decode(req.postFormToken).None? ||
      (req.multipartTokens.Some? && |req.multipartTokens.value| > 0 &&
       Base64.Decode(req.multipartTokens.value[0]).None?)
  {
    if baseCookie.Some? {
      var c := baseCookie.value;
      var r := ResolveRealToken(c, req, pending, now);
      if r.Resolved? {
        ServeResolved(c, exemptMethods, req, pending, now);
        ContinueNoToken(exemptMethods, req, r.realToken, [VaryCookie] + r.written, r.rest);
      } else {
        ServeUnresolved(c, exemptMethods, req, pending, now);
      }
    }
    PickedTokenUndecodable(req);
  }

  /** Once the real token is known, `ErrNoToken` means the picked token did not decode. */
  lemma ContinueNoToken(exemptMethods: seq<string>, req: Request, realToken: Bytes,
                        written: seq<HeaderLine>, pending: seq<Chunk>)
    ensures Continue(exemptMethods, req, realToken, written, pending).outcome == Failed(NoToken) ==>
      GetTokenFromRequest(req).Failure?
  {
  }

  /** A token `getTokenFromRequest` cannot decode is one of the three candidates. */
  lemma PickedTokenUndecodable(req: Request)
    ensures GetTokenFromRequest(req).Failure? ==>
      Base64.Decode(req.headerToken).None? || Base64.Decode(req.postFormToken).None? ||
      (req.multipartTokens.Some? && |req.multipartTokens.value| > 0 &&
       Base64.Decode(req.multipartTokens.value[0]).None?)
  {
  }

  /** A request that sends no token at all fails with `ErrBadToken`, not `ErrNoToken`: the empty
      string decodes to an empty slice, which is shorter than the real token. */
  lemma MissingTokenIsBadToken(c: CookieConfig, exemptMethods: seq<string>, req: Request,
                               pending: seq<Chunk>, now: int)
    requires req.headerToken == [] && req.postFormToken == []
    requires req.multipartTokens.None? || |req.multipartTokens.value| == 0 || req.multipartTokens.value[0] == []
    requires !StringInSlice(exemptMethods, req.verb) && OriginAccepted(req)
    requires ResolveRealToken(c, req, pending, now).Resolved?
    requires Draw(ResolveRealToken(c, req, pending, now).rest, TokenLength).err.None?
    ensures Serve(Some(c), exemptMethods, req, pending, now).outcome == Failed(BadToken)
  {
    TokenDecides(c, exemptMethods, req, pending, now);
  }

  /** The token check accepts what masking produces: a request carrying a valid cookie and, in the
      header, a token masked from that cookie's real token with any pad reaches the success handler.
      No code path hands a client this once-encoded text: `GetReqToken` returns it encoded a second
      time, which `EchoedContextTokenRejected` shows is refused. */
  lemma MaskedTokenAccepted(c: CookieConfig, exemptMethods: seq<string>, req: Request,
                            pending: seq<Chunk>, now: int, pad: Bytes)
    requires c.Get(req).Success? && |c.Get(req).value| == TokenLength
    requires !StringInSlice(exemptMethods, req.verb) && OriginAccepted(req)
    requires |pad| == TokenLength && req.headerToken == Mask(pad, c.Get(req).value)
    ensures var s := Serve(Some(c), exemptMethods, req, pending, now);
      s.outcome == Succeeded && CookiesSet(s.written) == []
  {
    MaskRoundTrip(pad, c.Get(req).value);
    Base64.EncodeEmptyIff(MaskedPayload(pad, c.Get(req).value));
    CookieSetOnlyWhenInvalid(c, exemptMethods, req, pending, now);
  }

  /** Echoing the context token (what `GetReqToken` returns) is rejected: it was base64-encoded a
      second time by `setReqToken` but is decoded only once, which gives 88 bytes instead of 64, and
      `unmaskToken` turns that into nil. */
  lemma EchoedContextTokenRejected(c: CookieConfig, exemptMethods: seq<string>, req: Request,
                                   pending: seq<Chunk>, now: int, pad: Bytes)
    requires c.Get(req).Success? && |c.Get(req).value| == TokenLength
    requires !StringInSlice(exemptMethods, req.verb) && OriginAccepted(req)
    requires Draw(pending, TokenLength).err.None?
    requires |pad| == TokenLength && req.headerToken == Base64.Encode(Mask(pad, c.Get(req).value))
    ensures Base64.Decode(req.headerToken) == Some(Mask(pad, c.Get(req).value))
    ensures |Mask(pad, c.Get(req).value)| == 88 && Unmask(Mask(pad, c.Get(req).value)) == []
    ensures Serve(Some(c), exemptMethods, req, pending, now).outcome == Failed(BadToken)
  {
    var m := Mask(pad, c.Get(req).value);
    MaskRoundTrip(pad, c.Get(req).value);
    Base64.EncodeThenDecode(m);
    Base64.EncodeEmptyIff(m);
    TokenDecides(c, exemptMethods, req, pending, now);
  }

  /** A masked token with any single bit flipped is rejected with `ErrBadToken`. */
  lemma BitFlippedTokenRejected(c: CookieConfig, exemptMethods: seq<string>, req: Request,
                                pending: seq<Chunk>, now: int, pad: Bytes, i: nat, bit: Byte)
    requires c.Get(req).Success? && |c.Get(req).value| == TokenLength
    requires !StringInSlice(exemptMethods, req.verb) && OriginAccepted(req)
    requires Draw(pending, TokenLength).err.None?
    requires |pad| == TokenLength && i < 2 * TokenLength && bit != 0
    requires req.headerToken == Base64.Encode(MaskedPayload(pad, c.Get(req).value)[i := MaskedPayload(pad, c.Get(req).value)[i] ^ bit])
    ensures Serve(Some(c), exemptMethods, req, pending, now).outcome == Failed(BadToken)
  {
    var p := MaskedPayload(pad, c.Get(req).value);
    var q := p[i := p[i] ^ bit];
    MaskRoundTrip(pad, c.Get(req).value);
    UnmaskDetectsBitFlip(p, i, bit);
    Base64.EncodeThenDecode(q);
    Base64.EncodeEmptyIff(q);
    TokenDecides(c, exemptMethods, req, pending, now);
  }

  /** A token masked from one real token is rejected once the cookie holds another, for instance
      after a request without a cookie had a new real token minted and set. */
  lemma ReplayAgainstOtherRealTokenRejected(c: CookieConfig, exemptMethods: seq<string>, req: Request,
                                            pending: seq<Chunk>, now: int, pad: Bytes, earlier: Bytes)
    requires !StringInSlice(exemptMethods, req.verb) && OriginAccepted(req)
    requires ResolveRealToken(c, req, pending, now).Resolved?
    requires Draw(ResolveRealToken(c, req, pending, now).rest, TokenLength).err.None?
    requires |pad| == TokenLength && |earlier| == TokenLength
    requires earlier != ResolveRealToken(c, req, pending, now).realToken
    requires req.headerToken == Mask(pad, earlier)
    ensures Serve(Some(c), exemptMethods, req, pending, now).outcome == Failed(BadToken)
  {
    MaskRoundTrip(pad, earlier);
    Base64.EncodeEmptyIff(MaskedPayload(pad, earlier));
    TokenDecides(c, exemptMethods, req, pending, now);
  }

  /** When no pad can be drawn, `maskToken` returns "" and the context token stays "": exempt and
      accepted requests still succeed, but every rejection becomes a panic. */
  lemma NoPadMakesRejectionsPanic(c: CookieConfig, exemptMethods: seq<string>, req: Request,
                                  pending: seq<Chunk>, now: int)
    requires ResolveRealToken(c, req, pending, now).Resolved?
    requires Draw(ResolveRealToken(c, req, pending, now).rest, TokenLength).err.Some?
    ensures var s := Serve(Some(c), exemptMethods, req, pending, now);
      s.token == [] && s.errDesc == None &&
      (s.outcome == Succeeded || s.outcome == Panicked(ErrDescWithoutToken))
  {
  }

  /** A handler fresh from `New` has no cookie settings: every call dereferences the nil cookie and
      panics, after the `Vary` header has been added. */
  lemma NoCookieOptionsPanics(exemptMethods: seq<string>, req: Request, pending: seq<Chunk>, now: int)
    ensures var s := Serve(None, exemptMethods, req, pending, now);
      s.outcome == Panicked(NilCookieConfig) && s.written == [VaryCookie] && s.rest == pending
  {
  }
}
