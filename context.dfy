/** secure/csrf/context.go: the per-request slot holding the masked token and the failure reason. */
module CsrfContext {
  import opened Wrappers
  import opened GoTypes
  import opened CsrfDefs
  import Base64

  /** `csrfContext`, shared by pointer between the middleware and the handler it calls. */
  class Context {
    var token: Bytes
    var errDesc: Option<CsrfError>

    /** A reason is never recorded while there is no token. */
    predicate Consistent()
      reads this
    {
      errDesc.Some? ==> token != []
    }

    /** `addContext(r)`: attaches a fresh, zero-valued context. */
    constructor ()
      ensures token == [] && errDesc == None
      ensures Consistent()
    {
      token := [];
      errDesc := None;
    }

    /** `GetReqToken(r)`: the stored token; nothing changes. */
    method GetReqToken() returns (t: Bytes)
      ensures t == token
    {
      t := token;
    }

    /** `GetReqErrDesc(r)`: the stored reason; nothing changes. */
    method GetReqErrDesc() returns (e: Option<CsrfError>)
      ensures e == errDesc
    {
      e := errDesc;
    }

    /** `setReqToken(r, t)`: stores the base64url text of `t` (so a masked token is encoded twice)
        and leaves the reason alone. */
    method SetReqToken(t: Bytes)
      modifies this
      ensures token == Base64.Encode(t) && errDesc == old(errDesc)
      ensures token == [] <==> t == []
      ensures t != [] && old(Consistent()) ==> Consistent()
    {
      token := Base64.Encode(t);
    }

    /** `setReqErrDesc(r, reason)`: `logging.Panic` when there is no token yet, so nothing is
        recorded; otherwise records the reason and keeps the token. */
    method SetReqErrDesc(reason: CsrfError) returns (panicked: bool)
      modifies this
      ensures panicked <==> old(token) == []
      ensures token == old(token)
      ensures errDesc == if panicked then old(errDesc) else Some(reason)
      ensures old(Consistent()) ==> Consistent()
    {
      if token == [] {
        return true;
      }
      errDesc := Some(reason);
      return false;
    }
  }
}
