/** gorilla/securecookie as the core uses it, `securecookie.New(authKey, nil)`: values are signed with
    a hash key and not encrypted. The MAC is modelled symbolically: a sealed value records the key and
    the cookie name it was made for, and it opens only under both. */
module SecureCookie {
  import opened Wrappers
  import opened GoTypes

  /** A cookie value as a client sends it back: produced by `Encode`, any other text, or another
      value wrapped in one pair of double quotes. */
  datatype CookieValue =
    | Sealed(hashKey: Bytes, name: string, payload: Bytes)
    | Plain(text: string)
    | Quoted(inner: CookieValue)

  /** A `*securecookie.SecureCookie` built from a hash key and no block key. */
  datatype Codec = Codec(hashKey: Bytes)

  /** `Encode(name, value)`: fails only when the codec has no hash key. */
  function Encode(codec: Codec, name: string, value: Bytes): (r: Result<CookieValue, GoError>)
    ensures r.Failure? <==> codec.hashKey == []
  {
    if codec.hashKey == [] then Failure(HashKeyNotSet)
    else Success(Sealed(codec.hashKey, name, value))
  }

  /** `Decode(name, value, &dst)`: succeeds only for a value sealed under the same key and name. */
  function Decode(codec: Codec, name: string, value: CookieValue): (r: Result<Bytes, GoError>)
    ensures r.Success? ==> value == Sealed(codec.hashKey, name, r.value) && codec.hashKey != []
  {
    if codec.hashKey == [] then Failure(HashKeyNotSet)
    else match value
      case Sealed(k, n, p) => if k == codec.hashKey && n == name then Success(p) else Failure(CookieDecodeFailed)
      case Plain(_) => Failure(CookieDecodeFailed)
      case Quoted(_) => Failure(CookieDecodeFailed)
  }

  lemma EncodeThenDecode(codec: Codec, name: string, value: Bytes)
    requires codec.hashKey != []
    ensures Encode(codec, name, value).Success?
    ensures Decode(codec, name, Encode(codec, name, value).value) == Success(value)
  {
  }
}
