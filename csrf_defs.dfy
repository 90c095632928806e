/** The constants, default exempt methods and error values declared in secure/csrf/csrf.go. */
module CsrfDefs {

  /** `tokenLength`: bytes in a real token, and in each half of a masked one. */
  const TokenLength: nat := 32

  const CookieName := "csrf_token"
  const FormFieldName := "csrf_token"
  const HeaderName := "X-CSRF-Token"
  /** `MaxAge`: one year, in seconds. */
  const MaxAge: int := 365 * 24 * 60 * 60

  /** `ExemptMethods`: GET, HEAD, CONNECT and TRACE. */
  const ExemptMethods: seq<string> := ["GET", "HEAD", "CONNECT", "TRACE"]

  /** `ErrServerIssue`, `ErrNoReferer`, `ErrBadReferer`, `ErrNoToken`, `ErrBadToken`. */
  datatype CsrfError = ServerIssue | NoReferer | BadReferer | NoToken | BadToken
}
