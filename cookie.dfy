/** secure/csrf/cookie.go: reading and writing the sealed cookie that holds the real token. */
module CsrfCookie {
  import opened Wrappers
  import opened GoTypes
  import opened Http
  import opened SecureCookie

  /** The `Expires` that `Set` gives a cookie: `time.Now().Add(time.Duration(maxAge) * time.Second)`
      in Unix nanoseconds, only when `maxAge > 0`; the product wraps as Go's int64 does. */
  function Expires(maxAge: Int, now: int): (r: Option<int>)
    ensures r.Some? <==> maxAge > 0
  {
    if maxAge > 0 then Some(now + WrapInt64(maxAge * 1_000_000_000)) else None
  }

  /** Up to 9223372036 seconds (about 292 years) the expiry is exactly `maxAge` seconds ahead. */
  lemma ExpiresExact(maxAge: Int, now: int)
    requires 0 < maxAge <= 9_223_372_036
    ensures Expires(maxAge, now) == Some(now + maxAge * 1_000_000_000)
  {
  }

  /** One second more and the duration wraps: the cookie expires about 292 years in the past. */
  lemma ExpiresWraps(now: int)
    ensures Expires(9_223_372_037, now) == Some(now - 9_223_372_036_709_551_616)
  {
  }

  /** `cookie`: the settings `SetCookieOptions` fixes and the codec built from the auth key. */
  datatype CookieConfig = CookieConfig(
    name: string,
    maxAge: Int,
    secure: bool,
    httpOnly: bool,
    path: string,
    domain: string,
    secureCookie: Codec)
  {
    /** `Get(r)`: the error of `r.Cookie(name)` when the cookie is absent, the error of `Decode`
        when it does not open, and the decoded token otherwise. */
    function Get(req: Request): (r: Result<Bytes, GoError>)
      ensures FindCookie(req.cookies, name).Failure? ==> r == Failure(NoCookie)
      ensures FindCookie(req.cookies, name).Success? ==>
        r == Decode(secureCookie, name, FindCookie(req.cookies, name).value)
    {
      match FindCookie(req.cookies, name)
      case Failure(err) => Failure(err)
      case Success(value) =>
        match Decode(secureCookie, name, value)
        case Failure(err) => Failure(err)
        case Success(token) => Success(token)
    }

    /** The cookie `Set` writes for a token, or the error of `Encode`. */
    function NewCookie(token: Bytes, now: int): (r: Result<Cookie, GoError>)
      ensures r.Failure? <==> Encode(secureCookie, name, token).Failure?
    {
      match Encode(secureCookie, name, token)
      case Failure(err) => Failure(err)
      case Success(encToken) =>
        Success(Cookie(name, encToken, maxAge, httpOnly, secure, path, domain, Expires(maxAge, now)))
    }

    /** `Set(token, w)`: on an `Encode` error returns it and writes nothing; otherwise returns nil after
        `http.SetCookie`, which adds one `Set-Cookie` header, or none when net/http refuses the name. */
    method Set(token: Bytes, w: ResponseWriter, now: int) returns (err: Option<GoError>)
      modifies w
      ensures NewCookie(token, now).Failure? ==>
        err == Some(NewCookie(token, now).error) && w.headers == old(w.headers)
      ensures NewCookie(token, now).Success? ==>
        err == None &&
        w.headers == old(w.headers) + (if ValidCookieName(name) then [SetCookie(NewCookie(token, now).value)] else [])
    {
      var enc := Encode(secureCookie, name, token);
      if enc.Failure? {
        return Some(enc.error);
      }
      var cookie := Cookie(name, enc.value, maxAge, httpOnly, secure, path, domain, None);
      if maxAge > 0 {
        cookie := cookie.(expires := Some(now + WrapInt64(maxAge * 1_000_000_000)));
      }
      if ValidCookieName(name) {
        w.headers := w.headers + [SetCookie(cookie)];
      }
      return None;
    }
  }

  /** The cookie `Set` writes carries the configured attributes, and a request whose first cookie of
      that name is the one written (other cookies may come with it) makes `Get` return exactly the
      token that was set. */
  lemma {:induction false} SetThenGet(c: CookieConfig, token: Bytes, now: int, req: Request)
    requires c.NewCookie(token, now).Success?
    requires FindCookie(req.cookies, c.name) == Success(c.NewCookie(token, now).value.value)
    ensures var ck := c.NewCookie(token, now).value;
      ck.name == c.name && ck.maxAge == c.maxAge && ck.httpOnly == c.httpOnly &&
      ck.secure == c.secure && ck.path == c.path && ck.domain == c.domain &&
      ck.expires == Expires(c.maxAge, now)
    ensures c.Get(req) == Success(token)
  {
    EncodeThenDecode(c.secureCookie, c.name, token);
  }

  /** A client that sends the written cookie back inside double quotes is read the same way: the
      quotes are dropped and `Get` returns the token that was set. */
  lemma QuotedCookieOpens(c: CookieConfig, token: Bytes, now: int, req: Request)
    requires ValidCookieName(c.name) && c.NewCookie(token, now).Success?
    requires req.cookies == [RequestCookie(c.name, Quoted(c.NewCookie(token, now).value.value))]
    ensures c.Get(req) == Success(token)
  {
    assert FirstIndex(req.cookies, c.name, 0);
    EncodeThenDecode(c.secureCookie, c.name, token);
  }
}
