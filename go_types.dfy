/** The few Go runtime notions the core relies on. */
module GoTypes {

  /** Go's `byte`. */
  type Byte = bv8

  /** A Go `[]byte`, and a Go `string` whose bytes are inspected (Go strings are byte strings,
      so `[]byte(s)` is the identity here). A nil slice is the empty sequence. */
  type Bytes = seq<Byte>

  /** The error values that reach the core from the library calls it makes. */
  datatype GoError =
    | RandUnavailable      // crypto/rand: the operating system source failed
    | UnexpectedEOF        // crypto/rand: io.ReadFull got fewer bytes than asked for
    | NoCookie             // net/http: http.ErrNoCookie
    | CookieDecodeFailed   // gorilla/securecookie: MAC, name or format check failed
    | HashKeyNotSet        // gorilla/securecookie: the codec was built without a hash key
    | CorruptInput         // encoding/base64: base64.CorruptInputError

  const Int64Min: int := -0x8000_0000_0000_0000
  const Int64Max: int := 0x7fff_ffff_ffff_ffff

  /** Go's `int` on a 64-bit platform. */
  type Int = x: int | Int64Min <= x <= Int64Max

  /** Two's complement wrap-around of a Go `int64` (and of `int` on 64-bit platforms). */
  function WrapInt64(x: int): (r: int)
    ensures Int64Min <= r <= Int64Max
    ensures (r - x) % 0x1_0000_0000_0000_0000 == 0
    ensures Int64Min <= x <= Int64Max ==> r == x
  {
    (x - Int64Min) % 0x1_0000_0000_0000_0000 + Int64Min
  }
}
