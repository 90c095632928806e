/** secure/helpers/helpers.go: random bytes from crypto/rand and comparison through crypto/subtle. */
module Helpers {
  import opened Wrappers
  import opened GoTypes
  import Base64

  /** What one `rand.Read` call gets from the operating system: some bytes, or a failure. */
  datatype Chunk = Entropy(bytes: Bytes) | Unavailable

  /** The outcome of reading `n` random bytes: the bytes, the error, and what the source has left. */
  datatype Drawn = Drawn(bytes: Bytes, err: Option<GoError>, rest: seq<Chunk>)

  /** `rand.Read` into an `n`-byte buffer, which is `io.ReadFull(rand.Reader, buf)`: an empty buffer
      needs no read; otherwise one chunk is consumed and it must hold at least `n` bytes. */
  function Draw(pending: seq<Chunk>, n: nat): (d: Drawn)
    ensures d.err.None? ==> |d.bytes| == n
    ensures d.err.Some? ==> d.bytes == [] && n > 0
    ensures n > 0 && pending != [] ==> d.rest == pending[1..]
    ensures n == 0 ==> d.rest == pending
  {
    if n == 0 then Drawn([], None, pending)
    else if pending == [] then Drawn([], Some(RandUnavailable), [])
    else match pending[0]
      case Unavailable => Drawn([], Some(RandUnavailable), pending[1..])
      case Entropy(b) =>
        if |b| < n then Drawn([], Some(UnexpectedEOF), pending[1..])
        else Drawn(b[..n], None, pending[1..])
  }

  /** `crypto/rand.Reader`, scripted: `pending` holds what the next reads will get. */
  class RandomSource {
    var pending: seq<Chunk>

    constructor (script: seq<Chunk>)
      ensures pending == script
    {
      pending := script;
    }

    /** `rand.Read(buf)`: fills the whole buffer or reports an error. */
    method Read(buf: array<Byte>) returns (err: Option<GoError>)
      modifies this, buf
      ensures var d := Draw(old(pending), buf.Length);
        err == d.err && pending == d.rest && (err.None? ==> buf[..] == d.bytes)
    {
      var d := Draw(pending, buf.Length);
      pending := d.rest;
      err := d.err;
      if err.None? {
        forall i | 0 <= i < buf.Length {
          buf[i] := d.bytes[i];
        }
      }
    }
  }

  /** `GenerateSecureBytes(n)`: a fresh `n`-byte buffer filled by `rand.Read`, or nil and the error. */
  method GenerateSecureBytes(n: nat, rng: RandomSource) returns (bytes: Bytes, err: Option<GoError>)
    modifies rng
    ensures Drawn(bytes, err, rng.pending) == Draw(old(rng.pending), n)
  {
    var buf := new Byte[n];
    err := rng.Read(buf);
    if err.Some? {
      return [], err;
    }
    bytes := buf[..];
  }

  /** `GenerateSecureString(n)`: the base64url text of `n` random bytes, or "" and the error. */
  method GenerateSecureString(n: nat, rng: RandomSource) returns (s: Bytes, err: Option<GoError>)
    modifies rng
    ensures var d := Draw(old(rng.pending), n);
      err == d.err && rng.pending == d.rest &&
      s == (if d.err.Some? then [] else Base64.Encode(d.bytes))
  {
    var bytes;
    bytes, err := GenerateSecureBytes(n, rng);
    if err.Some? {
      return [], err;
    }
    s := Base64.Encode(bytes);
  }

  /** On success the generated text decodes back to exactly `n` bytes. */
  lemma SecureStringDecodes(pending: seq<Chunk>, n: nat)
    requires Draw(pending, n).err.None?
    ensures var b := Base64.Decode(Base64.Encode(Draw(pending, n).bytes));
      b.Some? && |b.value| == n
  {
    Base64.EncodeThenDecode(Draw(pending, n).bytes);
  }

  /** The OR of all byte-wise XORs, as `subtle.ConstantTimeCompare` accumulates it. */
  function XorOr(x: Bytes, y: Bytes): Byte
    requires |x| == |y|
    decreases |x|
  {
    if |x| == 0 then 0
    else XorOr(x[..|x| - 1], y[..|y| - 1]) | (x[|x| - 1] ^ y[|y| - 1])
  }

  lemma {:induction false} XorOrZeroIffEqual(x: Bytes, y: Bytes)
    requires |x| == |y|
    ensures XorOr(x, y) == 0 <==> x == y
    decreases |x|
  {
    if |x| > 0 {
      var n := |x| - 1;
      XorOrZeroIffEqual(x[..n], y[..n]);
      assert x == x[..n] + [x[n]] && y == y[..n] + [y[n]];
      assert XorOr(x, y) == 0 <==> XorOr(x[..n], y[..n]) == 0 && x[n] == y[n];
    }
  }

  /** `subtle.ConstantTimeCompare`: 1 for equal slices, 0 otherwise (always 0 on a length mismatch).
      Its running time cannot be stated here, only its value. */
  function ConstantTimeCompare(x: Bytes, y: Bytes): (r: int)
    ensures r == 0 || r == 1
    ensures r == 1 <==> x == y
  {
    if |x| != |y| then 0
    else
      XorOrZeroIffEqual(x, y);
      if XorOr(x, y) == 0 then 1 else 0
  }

  /** `SecureCompare(a, b)`: true exactly when `ConstantTimeCompare` reports 1. */
  function SecureCompare(a: Bytes, b: Bytes): (r: bool)
    ensures r <==> a == b
    ensures r <==> ConstantTimeCompare(a, b) == 1
  {
    ConstantTimeCompare(a, b) == 1
  }

  /** `SecureCompareStrings(a, b)`: `SecureCompare([]byte(a), []byte(b))`, and Go strings are bytes. */
  function SecureCompareStrings(a: Bytes, b: Bytes): (r: bool)
    ensures r <==> a == b
  {
    SecureCompare(a, b)
  }

  lemma SecureCompareIsEquality(a: Bytes, b: Bytes, c: Bytes)
    ensures SecureCompare(a, a)
    ensures SecureCompare(a, b) == SecureCompare(b, a)
    ensures SecureCompare(a, b) && SecureCompare(b, c) ==> SecureCompare(a, c)
    ensures |a| != |b| ==> !SecureCompare(a, b)
  {
  }
}
