# CSRF middleware of wisent, modelled in Dafny

This project models the CSRF protection middleware of the wisent web toolkit (`secure/csrf`) and
the two primitives it takes from `secure/helpers`. For each request, `Handler.ServeHTTP` does the
following:

1. It reads the 32-byte real token from a signed cookie. If the cookie is missing, does not open,
   or holds a token of the wrong length, it mints a new token and sets the cookie.
2. It masks the real token with a fresh 32-byte one-time pad, giving `pad ‖ pad XOR real` encoded
   as base64url. It stores the base64url text of that masked token in a per-request context.
3. GET, HEAD, CONNECT and TRACE go straight to the wrapped handler.
4. When `r.URL.Scheme` is `https`, it requires a Referer with the request URL's scheme and host.
5. It takes the submitted token from the `X-CSRF-Token` header, then the `csrf_token` POST field,
   then the first multipart value. It decodes and unmasks that token and compares it with the
   real token.
6. It ends in exactly one of the success handler, the failure handler (with the reason in the
   context), or a panic.

`Csrf.Serve` states everything one call does as a function of five inputs: the cookie settings,
the exempt methods, the request, the random bytes still to come, and the clock.
`Csrf.Handler.ServeHTTP` does the same step by step. It works on a response writer, a random
source and a context object, and is proved to agree with `Serve`. The lemmas in `CsrfProperties`
state the middleware's guarantees about `Serve` for every input.

The model keeps the code's quirks rather than the behaviour one might expect:

- **Server issues panic.** When minting or setting the cookie fails, `setReqErrDesc` runs before
  any token is in the context. Its guard then calls `logging.Panic`, so `ErrServerIssue` is never
  recorded and no handler runs.
- **When no pad can be drawn, every rejection panics.** `maskToken` returns "" and the context
  token stays "".
- **The context token is encoded twice.** It is encoded by `maskToken` and again by
  `setReqToken`, but decoded only once on input. Echoing `GetReqToken` therefore gives an 88-byte
  value, and that value is rejected with `ErrBadToken`.
- **A request with no token at all gets `ErrBadToken`, not `ErrNoToken`.** The empty string
  decodes to an empty slice. `ErrNoToken` means a base64 decode error.
- **Both Referer failures report `ErrNoReferer`.** `ErrBadReferer` is never used.
- **The exempt list differs from RFC 7231.** Section 4.2.1 of RFC 7231 lists GET, HEAD, OPTIONS
  and TRACE as safe, while the default exempt list is GET, HEAD, CONNECT and TRACE.
- **`exemptPaths` is never read.**
- **The Referer check rarely runs.** It tests `r.URL.Scheme`. For a server request with the usual
  origin-form target (`POST /path`), net/http leaves that scheme empty, even over TLS. Only a
  request with an absolute-form target (`POST https://host/path`) gets the Referer check.
- **A cookie name net/http refuses makes protected requests fail in practice.** With an empty
  name, or one holding a space or a comma, `http.SetCookie` writes nothing and `r.Cookie` finds
  nothing. Each call then checks against a freshly minted real token that the client cannot know.
- **`Vary: Cookie` is added once, before any branch.** A second one is added only on a non-exempt
  success. A failure therefore carries exactly one, and so does an exempt success.

Base64url (section 5 of RFC 4648, padded, as Go's `base64.URLEncoding` encodes and decodes) is
modelled concretely. Its round trip and its output length are proved, not assumed.

Files:

| file | contents |
|---|---|
| `wrappers.dfy` | `Option`, `Result` |
| `go_types.dfy` | bytes, Go errors, int64 wrap-around |
| `base64.dfy` | the base64url codec |
| `secure_cookie.dfy` | the signed-cookie codec |
| `http.dfy` | requests, cookies, response headers |
| `helpers.dfy` | `secure/helpers` |
| `csrf_helpers.dfy` | `secure/csrf/helpers.go` |
| `csrf_defs.dfy` | constants and errors of `csrf.go` |
| `token.dfy` | `token.go` |
| `context.dfy` | `context.go` |
| `cookie.dfy` | `cookie.go` |
| `csrf.dfy` | `csrf.go` |
| `csrf_properties.dfy` | properties of a whole call |

## Model

| member | source | states |
|---|---|---|
| `GoTypes.WrapInt64` | secure/csrf/cookie.go:63 | the result is an int64, congruent to the input modulo 2^64, and equal to it when it is in range (Go's signed overflow) |
| `Base64.Encode` | secure/csrf/token.go:41 | the encoding of n bytes has length 4*((n+2)/3) and contains no line breaks |
| `Base64.Decode` | secure/csrf/token.go:28 | the empty string decodes to the empty slice without error |
| `Base64.EncodeThenDecode` | secure/csrf/token.go:41 | decoding an encoding returns the original bytes, for every byte string |
| `Base64.EncodeEmptyIff` | secure/csrf/context.go:47 | only the empty slice encodes to "", so `setReqToken("")` leaves the token "" and nothing else does |
| `SecureCookie.Encode` | secure/csrf/cookie.go:45-49 | encoding fails exactly when the codec has no hash key |
| `SecureCookie.Decode` | secure/csrf/cookie.go:34-38 | decoding succeeds only for a value sealed under the same key and cookie name, and then returns the sealed payload |
| `SecureCookie.EncodeThenDecode` | secure/csrf/cookie.go:45 | with a hash key, encoding succeeds and decoding its output returns the token |
| `Http.ParseCookieValue` | secure/csrf/cookie.go:25 | a value that reads is sealed, or plain text made only of printable ASCII other than `"`, `;` and the backslash |
| `Http.ReadCookieValue` | secure/csrf/cookie.go:25 | a sealed value reads as itself, also when sent inside double quotes; plain text loses one pair of surrounding quotes and reads only when every remaining byte is a value byte; a value quoted twice does not read |
| `Http.FirstCookieFinds` | secure/csrf/cookie.go:25 | the parsed value of the first cookie with the given name whose value reads, and `ErrNoCookie` exactly when no such cookie exists |
| `Http.FindCookie` | secure/csrf/cookie.go:25-29 | `r.Cookie(name)` fails only with `ErrNoCookie`, and always for a name net/http refuses |
| `Http.FindCookieFinds` | secure/csrf/cookie.go:25-29 | `r.Cookie(name)` returns the parsed value of the first cookie with that name whose value reads; `ErrNoCookie` exactly when net/http refuses the name or no such cookie exists |
| `Http.UnreadableCookieSkipped` | secure/csrf/cookie.go:25 | a same-named cookie with an unreadable value is passed over, and the sealed one after it is found |
| `Helpers.Draw` | secure/helpers/helpers.go:12 | reading n bytes yields exactly n bytes or an error with no bytes; an n of 0 reads nothing |
| `Helpers.RandomSource.Read` | secure/helpers/helpers.go:12 | `rand.Read` fills the whole buffer or reports the error, and consumes one read from the source |
| `Helpers.GenerateSecureBytes` | secure/helpers/helpers.go:10-19 | on success, exactly n random bytes and a nil error; on failure, nil and the error |
| `Helpers.GenerateSecureString` | secure/helpers/helpers.go:22-30 | "" and the error when generation fails, otherwise the base64url text of the n bytes |
| `Helpers.SecureStringDecodes` | secure/helpers/helpers.go:29 | a generated string decodes back to n bytes |
| `Helpers.XorOrZeroIffEqual` | secure/helpers/helpers.go:35 | the OR of the byte-wise XORs is zero exactly when the slices are equal |
| `Helpers.ConstantTimeCompare` | secure/helpers/helpers.go:35 | the result is 0 or 1, and 1 exactly when the slices have equal length and equal bytes |
| `Helpers.SecureCompare` | secure/helpers/helpers.go:34-40 | true exactly when `ConstantTimeCompare` reports 1, that is, when the slices are equal |
| `Helpers.SecureCompareStrings` | secure/helpers/helpers.go:43-45 | true exactly when the two strings have the same bytes |
| `Helpers.SecureCompareIsEquality` | secure/helpers/helpers.go:34-40 | `SecureCompare` is reflexive, symmetric and transitive, and false on a length mismatch |
| `CsrfHelpers.StringInSlice` | secure/csrf/helpers.go:8-16 | true exactly when some element of the haystack equals the needle (so false on an empty haystack) |
| `CsrfHelpers.StringInSliceOrderFree` | secure/csrf/helpers.go:8-16 | the answer is the same for any reordering of the haystack |
| `CsrfHelpers.SameOrigin` | secure/csrf/helpers.go:19-21 | true exactly when the Referer's scheme and host equal the request URL's |
| `CsrfHelpers.SameOriginIgnoresPath` | secure/csrf/helpers.go:19-21 | true exactly when scheme and host agree; path, query and fragment of either URL play no part |
| `CsrfHelpers.SameOriginIsEquivalence` | secure/csrf/helpers.go:20 | same-origin is reflexive, symmetric and transitive |
| `CsrfToken.Xor` | secure/csrf/token.go:67-81 | the result has the length of the shorter slice, and byte i is `a[i] ^ b[i]` |
| `CsrfToken.XorToken` | secure/csrf/token.go:67-81 | the loop over a freshly allocated buffer computes `Xor(a, b)` |
| `CsrfToken.XorCommutes` | secure/csrf/token.go:76-78 | `xorToken(a, b) == xorToken(b, a)` |
| `CsrfToken.XorCancels` | secure/csrf/token.go:76-78 | `xorToken(a, xorToken(a, b)) == b` when the lengths agree |
| `CsrfToken.MaskedPayload` | secure/csrf/token.go:41 | for a pad as long as the real token, the payload is twice that long, and XORing byte i with byte n+i gives back byte i of the real token |
| `CsrfToken.Mask` | secure/csrf/token.go:41 | for a 32-byte pad and real token, the masked token is 88 characters long and decodes to the 64-byte payload |
| `CsrfToken.MaskToken` | secure/csrf/token.go:33-42 | "" when no pad can be drawn, otherwise the base64url text of `pad ‖ xorToken(pad, real)` for a freshly drawn pad |
| `CsrfToken.Unmask` | secure/csrf/token.go:46-55 | nil for every input that is not 64 bytes long; otherwise 32 bytes, byte i being the XOR of bytes i and 32+i |
| `CsrfToken.CompareTokens` | secure/csrf/token.go:58-64 | false on a length mismatch, otherwise true exactly when the bytes are equal |
| `CsrfToken.MaskRoundTrip` | secure/csrf/token.go:41-54 | a masked token decodes to a 64-byte payload that unmasks to the real token, for every 32-byte pad and real token |
| `CsrfToken.UnmaskDetectsBitFlip` | secure/csrf/token.go:46-55 | flipping any bit of a 64-byte payload changes what it unmasks to |
| `CsrfToken.DecodeToken` | secure/csrf/token.go:28 | fails exactly when the text is not valid base64url, and otherwise returns the decoded bytes |
| `CsrfToken.GetTokenFromRequest` | secure/csrf/token.go:13-29 | the header if non-empty, else the POST field if non-empty, else the first multipart value; only decoding can fail; no token at all gives an empty slice and no error |
| `CsrfContext.Context.constructor` | secure/csrf/context.go:25-27 | a fresh context has an empty token and no error description |
| `CsrfContext.Context.GetReqToken` | secure/csrf/context.go:31-35 | returns the stored token and changes nothing |
| `CsrfContext.Context.GetReqErrDesc` | secure/csrf/context.go:38-42 | returns the stored reason and changes nothing |
| `CsrfContext.Context.SetReqToken` | secure/csrf/context.go:45-48 | stores the base64url text of its argument and leaves the reason unchanged; storing a non-empty token keeps "a reason only next to a token" |
| `CsrfContext.Context.SetReqErrDesc` | secure/csrf/context.go:51-59 | panics and records nothing exactly when the token is ""; otherwise records the reason; never changes the token; keeps "a reason only next to a token" |
| `CsrfCookie.Expires` | secure/csrf/cookie.go:62-64 | an expiry is set exactly when `maxAge > 0` |
| `CsrfCookie.ExpiresExact` | secure/csrf/cookie.go:63 | up to 9223372036 seconds, the expiry is exactly `maxAge` seconds after now |
| `CsrfCookie.ExpiresWraps` | secure/csrf/cookie.go:63 | at 9223372037 seconds the int64 duration wraps, so the cookie expires about 292 years in the past |
| `CsrfCookie.CookieConfig.Get` | secure/csrf/cookie.go:23-41 | the error when the named cookie is absent, the error when it does not decode, and otherwise the decoded token |
| `CsrfCookie.CookieConfig.NewCookie` | secure/csrf/cookie.go:45-64 | building the cookie fails exactly when encoding the token fails |
| `CsrfCookie.CookieConfig.Set` | secure/csrf/cookie.go:43-69 | on an encoding error, returns it and writes nothing; otherwise returns nil after appending exactly one Set-Cookie header, or none when net/http refuses the cookie name |
| `CsrfCookie.QuotedCookieOpens` | secure/csrf/cookie.go:23-41 | the written cookie sent back inside double quotes still makes `Get` return the token that was set |
| `CsrfCookie.SetThenGet` | secure/csrf/cookie.go:51-59 | the written cookie takes name, MaxAge, HttpOnly, Secure, Path and Domain from the settings, and a request whose first cookie of that name is it (other cookies may come too) makes `Get` return the token that was set |
| `Csrf.Reject` | secure/csrf/context.go:51-59 | `setReqErrDesc` then `handleFailure` on a call's result: a panic with nothing recorded exactly when the token is "", otherwise failure with the reason recorded; headers, token and random bytes pass through |
| `Csrf.Check` | secure/csrf/csrf.go:145-185 | exempt exactly when the method is in the list; a refusal is `ErrNoReferer`, `ErrNoToken` or `ErrBadToken`; a pass exactly when the method is not exempt, the Referer check (if https) holds, and the submitted token decodes and unmasks to the real token |
| `Csrf.Serve` | secure/csrf/csrf.go:111-191 | a call's headers always start with `Vary: Cookie`; it panics on the nil cookie settings exactly when there are none; a recorded reason always belongs to a failure and sits next to a non-empty token |
| `Csrf.Continue` | secure/csrf/csrf.go:142-190 | once the real token is known: success exactly when the verdict is not a refusal, a recorded reason only on a failure and next to a token, one pad drawn, and the context token "" exactly when the pad could not be drawn |
| `Csrf.ResolveRealToken` | secure/csrf/csrf.go:116-140 | a resolved real token is always 32 bytes long |
| `Csrf.Handler.New` | secure/csrf/csrf.go:78-87 | success is the given handler, failure is the default 400 handler, there are no cookie settings, and the exempt list is the default |
| `Csrf.Handler.SetCookieOptions` | secure/csrf/csrf.go:90-100 | the cookie settings become the given ones, with a codec built from the auth key |
| `Csrf.Handler.SetFailureHandler` | secure/csrf/csrf.go:104-106 | the failure handler becomes the given one |
| `Csrf.Handler.FailWith` | secure/csrf/csrf.go:199-203 | `setReqErrDesc` then `handleFailure`: a panic with no handler when the context has no token, otherwise the reason is recorded and the failure handler runs |
| `Csrf.Handler.ObtainRealToken` | secure/csrf/csrf.go:116-140 | keeps a valid cookie's token, or mints and sets a new one, or reports that this failed; only the new cookie is written |
| `Csrf.Handler.Decide` | secure/csrf/csrf.go:145-190 | the exempt shortcut, the https Referer check and the token comparison, with the handler each one invokes |
| `Csrf.Handler.MaskAndDecide` | secure/csrf/csrf.go:142-190 | the token is masked into the fresh context and the decision follows, with the same outcome, headers, context and random bytes as `Continue` |
| `Csrf.Handler.Finish` | secure/csrf/csrf.go:142-190 | once the real token is resolved and the Vary and cookie headers are written, the rest of the call does what `Continue` does |
| `Csrf.Handler.Protect` | secure/csrf/csrf.go:116-190 | with cookie settings and the `Vary` header in place, the call does what `Serve` does, including the panic when minting or setting the token fails |
| `Csrf.Handler.ServeHTTP` | secure/csrf/csrf.go:111-191 | outcome, headers written, final context and random bytes used all agree with `Serve`; a call that does not panic invokes exactly one handler, and one that panics invokes none |
| `CsrfProperties.VaryHeaders` | secure/csrf/csrf.go:114-188 | `Vary: Cookie` comes first on every call; there are two exactly on a non-exempt success and one otherwise; at most one cookie is written |
| `CsrfProperties.CookieSetOnlyWhenInvalid` | secure/csrf/csrf.go:121-140 | a cookie is written exactly when `Get` fails or gives a token that is not 32 bytes, minting and encoding succeed, and net/http accepts the cookie name; a valid cookie is never rewritten |
| `CsrfProperties.InvalidCookieNameNeverPersists` | secure/csrf/cookie.go:66 | with a cookie name net/http refuses, `Get` always fails, no cookie is written, and every call takes a freshly minted real token |
| `CsrfProperties.ServerIssuePanics` | secure/csrf/csrf.go:124-138 | when minting or setting the cookie fails, the call panics with an empty context, and no handler runs |
| `CsrfProperties.FailureReasons` | secure/csrf/csrf.go:153-185 | a failure records its reason next to a non-empty token; the reason is `ErrNoReferer`, `ErrNoToken` or `ErrBadToken`, never `ErrServerIssue` or `ErrBadReferer`; other outcomes record nothing |
| `CsrfProperties.ExemptMethodsSucceed` | secure/csrf/csrf.go:142-150 | an exempt method reaches the success handler whatever its Referer or token, with the masked token already in the context |
| `CsrfProperties.DefaultExemptMethods` | secure/csrf/csrf.go:43-48 | the default list holds exactly GET, HEAD, CONNECT and TRACE: OPTIONS is checked |
| `CsrfProperties.HttpsRefererEnforced` | secure/csrf/csrf.go:153-168 | a non-exempt https request whose Referer does not parse, is absent, or has another scheme or host fails with `ErrNoReferer` (a panic when no pad was drawn) |
| `CsrfProperties.PlainHttpIgnoresReferer` | secure/csrf/csrf.go:153 | for a request that is not https, the Referer makes no difference to anything the call does |
| `CsrfProperties.TokenDecides` | secure/csrf/csrf.go:171-185 | past the exempt and Referer checks, `ErrNoToken` exactly when decoding fails, success exactly when the token unmasks to the real token, and `ErrBadToken` exactly when it does not |
| `CsrfProperties.NoTokenOnlyFromDecodeError` | secure/csrf/csrf.go:171-177 | `ErrNoToken` only ever comes from the token `getTokenFromRequest` picked failing to decode, which is one of the three candidates |
| `CsrfProperties.MissingTokenIsBadToken` | secure/csrf/csrf.go:179-185 | a request that sends no token at all (no header, no POST field, and no multipart form, no multipart value or an empty first one) fails with `ErrBadToken` |
| `CsrfProperties.MaskedTokenAccepted` | secure/csrf/csrf.go:116-190 | a valid cookie plus a header token masked from its real token with any pad reaches the success handler, and no cookie is rewritten (the once-encoded text, which the handler never hands out itself) |
| `CsrfProperties.EchoedContextTokenRejected` | secure/csrf/context.go:45-48 | echoing the context token decodes to an 88-byte value, which unmasks to nil, and the call fails with `ErrBadToken` |
| `CsrfProperties.BitFlippedTokenRejected` | secure/csrf/csrf.go:179-185 | a masked token with any single bit flipped fails with `ErrBadToken` |
| `CsrfProperties.ReplayAgainstOtherRealTokenRejected` | secure/csrf/csrf.go:179-185 | a token masked from one real token fails with `ErrBadToken` once the cookie holds another |
| `CsrfProperties.NoPadMakesRejectionsPanic` | secure/csrf/token.go:34-38 | when no pad can be drawn, the context token stays "", exempt and accepted requests still succeed, and every rejection panics |
| `CsrfProperties.NoCookieOptionsPanics` | secure/csrf/csrf.go:116 | without cookie settings (as `New` leaves the handler), every call panics after adding the Vary header and before reading random bytes |

## Left out

- Logging: `logging.Error` is a no-op. `logging.Panic` and the nil dereference of a missing cookie configuration end the call in a `Panicked` outcome. How `net/http` recovers from the panic is not modelled.
- `url.Parse`: the request URL arrives parsed. The Referer arrives as the result of parsing it: `None` for a parse error, and the empty URL when the header is absent.
- CsrfProperties.HttpsRefererEnforced: applies only when `r.URL.Scheme` is `https`. The model takes `r.URL` as given and does not derive it from the request line; net/http sets that scheme only for an absolute-form target, so an ordinary request over TLS skips the Referer check.
- CsrfContext.Context.GetReqToken and GetReqErrDesc: read a `Context` object directly. The source fetches it from the request with a type assertion (`.(*csrfContext)`), which panics for a request that did not pass through the middleware; that panic is not modelled.
- `http.SetCookie` serialisation: beyond refusing an invalid name, net/http drops an invalid Domain attribute, sanitises Path and value, and drops an expiry before the year 1601. The model keeps the cookie record as built.
- `Cookie` request header: it arrives already split into name/value pairs, with pairs under a name net/http refuses already dropped. Splitting the header and trimming spaces are not modelled. A value arrives as sealed text, other text, or either of those inside one pair of double quotes; reading it (the quote stripping and the byte check that pass over an unreadable pair) is modelled in `Http.ParseCookieValue`.
- Form parsing: the POST field and the multipart values arrive already parsed. Parse errors, which `PostFormValue` ignores, are not modelled.
- gorilla/securecookie: the signature is symbolic. A value opens only under the key and cookie name it was sealed with. HMAC, gob serialisation, the block key and securecookie's own timestamp expiry are not modelled.
- crypto/rand: a scripted sequence of reads, each giving some bytes or failing.
- Helpers.ConstantTimeCompare: states the value of `subtle.ConstantTimeCompare`, not its constant running time.
- Helpers.GenerateSecureBytes: takes n as a natural number. Go's `make` panics on a negative n, and that panic is not modelled.
- `time.Now`: a parameter `now`, in Unix nanoseconds.
- `handleSuccess`, `handleFailure` and the handlers themselves: the handler that runs is returned as the `invoked` result of `ServeHTTP`. What a handler writes, including the 400 body of `defaultFailureHandler`, is not modelled.
- `r.WithContext`: the per-request context is the fresh `Context` object that `ServeHTTP` returns. Request copying is not modelled.
- Response headers: only the `Vary` and `Set-Cookie` lines the middleware adds are kept. Header canonicalisation is not modelled.
- Method, scheme, host, cookie names, path and domain are Dafny strings. Apart from the check that a cookie name is made of token characters, they are only compared for equality.
- Concurrency and isolation between requests are not modelled.
- `main.go`, configuration, signal handling and the logging sinks are not part of this model.
- The test files are not part of this model.
