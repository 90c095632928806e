/** secure/csrf/token.go: masking the real token with a one-time pad, unmasking, comparing, and
    finding the submitted token in a request. */
module CsrfToken {
  import opened Wrappers
  import opened GoTypes
  import opened Http
  import opened CsrfDefs
  import Base64
  import Helpers

  /** Byte-wise XOR over the shorter of the two slices: the value `xorToken` computes. */
  function Xor(a: Bytes, b: Bytes): (r: Bytes)
    ensures |r| == if |a| < |b| then |a| else |b|
    ensures forall i :: 0 <= i < |r| ==> r[i] == a[i] ^ b[i]
    decreases |a|
  {
    if |a| == 0 || |b| == 0 then []
    else [a[0] ^ b[0]] + Xor(a[1..], b[1..])
  }

  /** `xorToken(a, b)`: allocates the result and fills it in a loop. */
  method XorToken(a: Bytes, b: Bytes) returns (res: Bytes)
    ensures res == Xor(a, b)
  {
    var n := |a|;
    if |b| < n {
      n := |b|;
    }
    var buf := new Byte[n];
    for i := 0 to n
      invariant forall k :: 0 <= k < i ==> buf[k] == a[k] ^ b[k]
    {
      buf[i] := a[i] ^ b[i];
    }
    res := buf[..];
  }

  lemma XorCommutes(a: Bytes, b: Bytes)
    ensures Xor(a, b) == Xor(b, a)
  {
    var x, y := Xor(a, b), Xor(b, a);
    assert forall i :: 0 <= i < |x| ==> x[i] == y[i];
  }

  /** XOR with the same pad twice gives the original back. */
  lemma XorCancels(a: Bytes, b: Bytes)
    requires |a| == |b|
    ensures Xor(a, Xor(a, b)) == b
  {
    var x := Xor(a, Xor(a, b));
    assert forall i :: 0 <= i < |x| ==> x[i] == b[i];
  }

  /** The payload `maskToken` encodes: the pad followed by pad XOR the real token. */
  function MaskedPayload(pad: Bytes, realToken: Bytes): (p: Bytes)
    ensures |pad| == |realToken| ==> |p| == 2 * |pad|
    ensures |pad| == |realToken| ==> forall i :: 0 <= i < |pad| ==> p[i] ^ p[|pad| + i] == realToken[i]
  {
    pad + Xor(pad, realToken)
  }

  /** The masked token for a given pad: the base64url text of the payload. */
  function Mask(pad: Bytes, realToken: Bytes): (m: Bytes)
    ensures |pad| == TokenLength && |realToken| == TokenLength ==>
      |m| == 88 && Base64.Decode(m) == Some(MaskedPayload(pad, realToken))
  {
    Base64.EncodeThenDecode(MaskedPayload(pad, realToken));
    Base64.Encode(MaskedPayload(pad, realToken))
  }

  /** `maskToken(realToken, r)`: "" when no pad can be drawn, otherwise the masked token for a
      fresh `tokenLength`-byte pad. */
  method MaskToken(realToken: Bytes, rng: Helpers.RandomSource) returns (masked: Bytes)
    modifies rng
    ensures var d := Helpers.Draw(old(rng.pending), TokenLength);
      rng.pending == d.rest && masked == (if d.err.Some? then [] else Mask(d.bytes, realToken))
  {
    var otp, err := Helpers.GenerateSecureBytes(TokenLength, rng);
    if err.Some? {
      return [];
    }
    var x := XorToken(otp, realToken);
    masked := Base64.Encode(otp + x);
  }

  /** `unmaskToken(issued)`: nil unless exactly two token lengths long; otherwise the XOR of the
      second half (named the pad in the source) with the first. */
  function Unmask(issued: Bytes): (r: Bytes)
    ensures |issued| != 2 * TokenLength ==> r == []
    ensures |issued| == 2 * TokenLength ==>
      |r| == TokenLength &&
      forall i :: 0 <= i < TokenLength ==> r[i] == issued[i] ^ issued[TokenLength + i]
  {
    if |issued| != 2 * TokenLength then []
    else
      var otp := issued[TokenLength..];
      var masked := issued[..TokenLength];
      Xor(otp, masked)
  }

  /** `compareTokens(a, b)`: false on a length mismatch, otherwise `SecureCompare`. */
  function CompareTokens(a: Bytes, b: Bytes): (r: bool)
    ensures r <==> a == b
    ensures |a| != |b| ==> !r
  {
    if |a| != |b| then false
    else Helpers.SecureCompare(a, b)
  }

  /** Masking then unmasking gives the real token back, for every pad of the right length; this holds
      although `unmaskToken` names the halves the other way round, because XOR commutes. */
  lemma {:induction false} MaskRoundTrip(pad: Bytes, realToken: Bytes)
    requires |pad| == TokenLength && |realToken| == TokenLength
    ensures Base64.Decode(Mask(pad, realToken)) == Some(MaskedPayload(pad, realToken))
    ensures |MaskedPayload(pad, realToken)| == 2 * TokenLength
    ensures Unmask(MaskedPayload(pad, realToken)) == realToken
  {
    var p := MaskedPayload(pad, realToken);
    Base64.EncodeThenDecode(p);
    assert p[TokenLength..] == Xor(pad, realToken) && p[..TokenLength] == pad;
    XorCommutes(Xor(pad, realToken), pad);
    XorCancels(pad, realToken);
  }

  /** Flipping any bit of a well-formed masked payload changes what it unmasks to. */
  lemma UnmaskDetectsBitFlip(p: Bytes, i: nat, bit: Byte)
    requires |p| == 2 * TokenLength && i < |p| && bit != 0
    ensures Unmask(p[i := p[i] ^ bit]) != Unmask(p)
  {
    var q := p[i := p[i] ^ bit];
    var k := if i < TokenLength then i else i - TokenLength;
    assert Unmask(q)[k] != Unmask(p)[k];
  }

  /** A submitted token string decoded as `base64.URLEncoding.DecodeString` does. */
  function DecodeToken(s: Bytes): (r: Result<Bytes, GoError>)
    ensures r.Failure? <==> Base64.Decode(s).None?
    ensures r.Success? ==> Base64.Decode(s) == Some(r.value)
    ensures r.Failure? ==> r.error == CorruptInput
  {
    match Base64.Decode(s)
    case None => Failure(CorruptInput)
    case Some(b) => Success(b)
  }

  /** `getTokenFromRequest(r)`: the header if non-empty, else the POST form value, else the first
      multipart value; decoding it is the only source of an error, and no token at all is "". */
  function GetTokenFromRequest(req: Request): (r: Result<Bytes, GoError>)
    ensures |req.headerToken| > 0 ==> r == DecodeToken(req.headerToken)
    ensures |req.headerToken| == 0 && |req.postFormToken| > 0 ==> r == DecodeToken(req.postFormToken)
    ensures (|req.headerToken| == 0 && |req.postFormToken| == 0 &&
             req.multipartTokens.Some? && |req.multipartTokens.value| > 0) ==>
              r == DecodeToken(req.multipartTokens.value[0])
    ensures (|req.headerToken| == 0 && |req.postFormToken| == 0 &&
             (req.multipartTokens.None? || |req.multipartTokens.value| == 0)) ==>
              r == Success([])
  {
    var token := req.headerToken;
    var token := if |token| == 0 then req.postFormToken else token;
    var token :=
      if |token| == 0 && req.multipartTokens.Some? && |req.multipartTokens.value| != 0
      then req.multipartTokens.value[0] else token;
    DecodeToken(token)
  }
}
