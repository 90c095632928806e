/** The parts of net/http and net/url the core reads and writes. */
module Http {
  import opened Wrappers
  import opened GoTypes
  import opened SecureCookie

  /** A parsed `*url.URL`. */
  datatype Url = Url(scheme: string, host: string, path: string, rawQuery: string, fragment: string)

  /** What `url.Parse("")` returns: an empty URL and no error. */
  const EmptyUrl := Url("", "", "", "", "")

  datatype RequestCookie = RequestCookie(name: string, value: CookieValue)

  /** An inbound `*http.Request`, reduced to what the core reads; `verb` is `r.Method` and `url` is
      `r.URL` as net/http leaves it (for a server request with the usual origin-form target, such as
      `POST /path`, its scheme and host are empty, even over TLS). Form parsing has already happened:
      `postFormToken` is `r.PostFormValue("csrf_token")` ("" when absent) and `multipartTokens` is
      `r.MultipartForm.Value["csrf_token"]`, None when `r.MultipartForm` is nil. `referer` is the
      result of `url.Parse(r.Header.Get("Referer"))`, None when it reports an error. */
  datatype Request = Request(
    verb: string,
    url: Url,
    referer: Option<Url>,
    headerToken: Bytes,
    postFormToken: Bytes,
    multipartTokens: Option<seq<Bytes>>,
    cookies: seq<RequestCookie>)

  /** A token character of section 3.2.6 of RFC 7230, the bytes net/http allows in a cookie name. */
  predicate IsTokenChar(ch: char)
  {
    ('0' <= ch <= '9') || ('a' <= ch <= 'z') || ('A' <= ch <= 'Z') || ch in "!#$%&'*+-.^_`|~"
  }

  /** net/http's `isCookieNameValid`: a non-empty run of token characters. `r.Cookie` never returns a
      cookie with another name, and `http.SetCookie` writes nothing for one. */
  predicate ValidCookieName(name: string)
  {
    name != [] && forall i :: 0 <= i < |name| ==> IsTokenChar(name[i])
  }

  /** net/http's `validCookieValueByte`: printable ASCII other than the double quote, the semicolon
      and the backslash. */
  predicate IsCookieValueChar(ch: char)
  {
    0x20 <= ch as int < 0x7f && ch != '"' && ch != ';' && ch != '\\'
  }

  /** Text made only of cookie value bytes. */
  predicate ValueText(text: string)
  {
    forall i :: 0 <= i < |text| ==> IsCookieValueChar(text[i])
  }

  /** net/http's `parseCookieValue(raw, true)`: one pair of surrounding double quotes is dropped,
      then every remaining byte must be a cookie value byte, or the pair is unreadable. A sealed
      value is base64url text, so it reads back as itself, with or without the quotes; inside a
      stripped pair, a second quote is not a value byte. */
  function ParseCookieValue(v: CookieValue): (r: Option<CookieValue>)
    ensures r.Some? ==> r.value.Sealed? || (r.value.Plain? && ValueText(r.value.text))
  {
    match v
    case Sealed(_, _, _) => Some(v)
    case Plain(text) =>
      var raw := if |text| > 1 && text[0] == '"' && text[|text| - 1] == '"' then text[1..|text| - 1] else text;
      if ValueText(raw) then Some(Plain(raw)) else None
    case Quoted(inner) =>
      match inner
      case Sealed(_, _, _) => Some(inner)
      case Plain(text) => if ValueText(text) then Some(inner) else None
      case Quoted(_) => None
  }

  /** How each kind of value reads: a sealed value as itself, quoted or not; plain text as itself
      when it holds only value bytes, and without one pair of surrounding quotes; a value quoted
      twice not at all. */
  lemma ReadCookieValue(v: CookieValue)
    ensures v.Sealed? ==> ParseCookieValue(v) == Some(v)
    ensures v.Plain? && ValueText(v.text) ==> ParseCookieValue(v) == Some(v)
    ensures v.Plain? && |v.text| > 1 && v.text[0] == '"' && v.text[|v.text| - 1] == '"' ==>
      ParseCookieValue(v) ==
        if ValueText(v.text[1..|v.text| - 1]) then Some(Plain(v.text[1..|v.text| - 1])) else None
    ensures v.Quoted? && v.inner.Sealed? ==> ParseCookieValue(v) == Some(v.inner)
    ensures v.Quoted? && v.inner.Plain? ==>
      ParseCookieValue(v) == if ValueText(v.inner.text) then Some(v.inner) else None
    ensures v.Quoted? && v.inner.Quoted? ==> ParseCookieValue(v).None?
  {
  }

  /** A cookie `r.Cookie(name)` can return: it has that name and its value reads. */
  predicate Readable(c: RequestCookie, name: string)
  {
    c.name == name && ParseCookieValue(c.value).Some?
  }

  /** Index `i` holds the first readable cookie with the given name. */
  predicate FirstIndex(cookies: seq<RequestCookie>, name: string, i: int)
  {
    0 <= i < |cookies| && Readable(cookies[i], name) && forall j :: 0 <= j < i ==> !Readable(cookies[j], name)
  }

  /** The parsed value of the first cookie with the given name whose value reads; pairs with that
      name and an unreadable value are passed over, as net/http's `readCookies` does. */
  function FirstCookie(cookies: seq<RequestCookie>, name: string): (r: Result<CookieValue, GoError>)
    ensures r.Failure? ==> r.error == NoCookie
  {
    if |cookies| == 0 then Failure(NoCookie)
    else if Readable(cookies[0], name) then Success(ParseCookieValue(cookies[0].value).value)
    else FirstCookie(cookies[1..], name)
  }

  /** `FirstCookie` fails exactly when no cookie with the name reads, and otherwise returns the parsed
      value of the first one that does. */
  lemma {:induction false} FirstCookieFinds(cookies: seq<RequestCookie>, name: string)
    ensures FirstCookie(cookies, name).Failure? <==> forall i :: 0 <= i < |cookies| ==> !Readable(cookies[i], name)
    ensures var r := FirstCookie(cookies, name);
      r.Success? ==> exists i :: FirstIndex(cookies, name, i) && ParseCookieValue(cookies[i].value) == Some(r.value)
  {
    if |cookies| == 0 {
    } else if Readable(cookies[0], name) {
      assert FirstIndex(cookies, name, 0);
    } else {
      var rest := FirstCookie(cookies[1..], name);
      FirstCookieFinds(cookies[1..], name);
      if rest.Success? {
        var k :| FirstIndex(cookies[1..], name, k) && ParseCookieValue(cookies[1..][k].value) == Some(rest.value);
        forall j | 0 <= j < k + 1
          ensures !Readable(cookies[j], name)
        {
          if j > 0 {
            assert cookies[j] == cookies[1..][j - 1];
          }
        }
        assert FirstIndex(cookies, name, k + 1);
      } else {
        forall i | 0 <= i < |cookies|
          ensures !Readable(cookies[i], name)
        {
          if i > 0 {
            assert cookies[i] == cookies[1..][i - 1];
          }
        }
      }
    }
  }

  /** `r.Cookie(name)`: the parsed value of the first readable cookie with that name, or
      `http.ErrNoCookie`; always the error for a name net/http refuses. */
  function FindCookie(cookies: seq<RequestCookie>, name: string): (r: Result<CookieValue, GoError>)
    ensures r.Failure? ==> r.error == NoCookie
    ensures !ValidCookieName(name) ==> r.Failure?
  {
    if !ValidCookieName(name) then Failure(NoCookie) else FirstCookie(cookies, name)
  }

  /** `FindCookie` fails exactly when net/http refuses the name or no cookie with it reads, and
      otherwise returns the parsed value of the first one that does. */
  lemma FindCookieFinds(cookies: seq<RequestCookie>, name: string)
    ensures FindCookie(cookies, name).Failure? <==>
      !ValidCookieName(name) || forall i :: 0 <= i < |cookies| ==> !Readable(cookies[i], name)
    ensures var r := FindCookie(cookies, name);
      r.Success? ==> ValidCookieName(name) && exists i :: FirstIndex(cookies, name, i) && ParseCookieValue(cookies[i].value) == Some(r.value)
  {
    FirstCookieFinds(cookies, name);
  }

  /** A same-named cookie whose value does not read is passed over: the one after it is found. */
  lemma UnreadableCookieSkipped(bad: RequestCookie, good: RequestCookie, name: string)
    requires ValidCookieName(name) && bad.name == name && ParseCookieValue(bad.value).None?
    requires good.name == name && good.value.Sealed?
    ensures FindCookie([bad, good], name) == Success(good.value)
  {
    ReadCookieValue(good.value);
    assert [bad, good][1..] == [good];
    assert FirstCookie([good], name) == Success(good.value);
  }

  /** An `*http.Cookie` as the core builds it; `expires` is None for the zero `time.Time`, otherwise
      Unix nanoseconds. */
  datatype Cookie = Cookie(
    name: string,
    value: CookieValue,
    maxAge: int,
    httpOnly: bool,
    secure: bool,
    path: string,
    domain: string,
    expires: Option<int>)

  /** One response header line: a plain `Header().Add(name, value)` or what `http.SetCookie` adds. */
  datatype HeaderLine = Header(name: string, value: string) | SetCookie(cookie: Cookie)

  const VaryCookie := Header("Vary", "Cookie")

  /** The response headers written so far through an `http.ResponseWriter`. */
  class ResponseWriter {
    var headers: seq<HeaderLine>

    constructor ()
      ensures headers == []
    {
      headers := [];
    }
  }

  /** An `http.Handler`: the default failure handler of the core, or one supplied by the application. */
  datatype HttpHandler = DefaultFailureHandler | AppHandler(name: string)
}
