/** Go's `base64.URLEncoding`: the URL and filename safe alphabet of section 5 of RFC 4648, with `=`
    padding, as `EncodeToString` and `DecodeString` of package encoding/base64 behave. The decoder is
    the non-strict one: carriage returns and line feeds anywhere are skipped, and the unused low bits
    of the last digit before padding are ignored. */
module Base64 {
  import opened Wrappers
  import opened GoTypes

  const Pad: Byte := 61             // '='
  const LineFeed: Byte := 10        // '\n'
  const CarriageReturn: Byte := 13  // '\r'

  /** The alphabet byte for a 6-bit value: 'A'..'Z', 'a'..'z', '0'..'9', '-', '_'. */
  function Digit(v: Byte): (c: Byte)
    requires v < 64
    ensures c != Pad && c != LineFeed && c != CarriageReturn
  {
    if v < 26 then v + 65
    else if v < 52 then v + 71
    else if v < 62 then v - 4
    else if v == 62 then 45
    else 95
  }

  /** The 6-bit value of an alphabet byte (Go's decode map); None for every other byte. */
  function Value(c: Byte): (v: Option<Byte>)
    ensures v.Some? ==> v.value < 64 && Digit(v.value) == c
    ensures c == Pad || c == LineFeed || c == CarriageReturn ==> v.None?
  {
    if 65 <= c <= 90 then Some(c - 65)
    else if 97 <= c <= 122 then Some(c - 71)
    else if 48 <= c <= 57 then Some(c + 4)
    else if c == 45 then Some(62)
    else if c == 95 then Some(63)
    else None
  }

  lemma ValueOfDigit(v: Byte)
    requires v < 64
    ensures Value(Digit(v)) == Some(v)
  {
  }

  predicate IsNewline(c: Byte) {
    c == LineFeed || c == CarriageReturn
  }

  /** Four digits for three bytes. */
  function EncodeBlock(a: Byte, b: Byte, c: Byte): (r: Bytes)
    ensures |r| == 4
  {
    [Digit(a >> 2), Digit(((a & 3) << 4) | (b >> 4)), Digit(((b & 15) << 2) | (c >> 6)), Digit(c & 63)]
  }

  /** `base64.URLEncoding.EncodeToString`. */
  function Encode(s: Bytes): (r: Bytes)
    ensures |r| == 4 * ((|s| + 2) / 3)
    ensures forall i :: 0 <= i < |r| ==> !IsNewline(r[i])
    decreases |s|
  {
    if |s| == 0 then []
    else if |s| == 1 then [Digit(s[0] >> 2), Digit((s[0] & 3) << 4), Pad, Pad]
    else if |s| == 2 then [Digit(s[0] >> 2), Digit(((s[0] & 3) << 4) | (s[1] >> 4)), Digit((s[1] & 15) << 2), Pad]
    else EncodeBlock(s[0], s[1], s[2]) + Encode(s[3..])
  }

  /** The input with every carriage return and line feed removed, as Go's decoder skips them. */
  function SkipNewlines(s: Bytes): (r: Bytes)
    ensures |r| <= |s|
    ensures forall i :: 0 <= i < |r| ==> !IsNewline(r[i])
  {
    if |s| == 0 then []
    else (if IsNewline(s[0]) then [] else [s[0]]) + SkipNewlines(s[1..])
  }

  lemma {:induction false} SkipNewlinesNone(s: Bytes)
    requires forall i :: 0 <= i < |s| ==> !IsNewline(s[i])
    ensures SkipNewlines(s) == s
  {
    if |s| > 0 {
      SkipNewlinesNone(s[1..]);
    }
  }

  /** Three bytes from four 6-bit values. */
  function Combine(d0: Byte, d1: Byte, d2: Byte, d3: Byte): (r: Bytes)
    ensures |r| == 3
  {
    [(d0 << 2) | (d1 >> 4), (d1 << 4) | (d2 >> 2), (d2 << 6) | d3]
  }

  /** A quantum that is not the last one: four alphabet bytes. */
  function DecodeFull(q0: Byte, q1: Byte, q2: Byte, q3: Byte): (r: Option<Bytes>)
    ensures r.Some? ==> |r.value| == 3
  {
    match (Value(q0), Value(q1), Value(q2), Value(q3))
    case (Some(d0), Some(d1), Some(d2), Some(d3)) => Some(Combine(d0, d1, d2, d3))
    case _ => None
  }

  /** The last quantum: four alphabet bytes, three and "=", or two and "==". */
  function DecodeLast(q0: Byte, q1: Byte, q2: Byte, q3: Byte): (r: Option<Bytes>)
    ensures r.Some? ==> 1 <= |r.value| <= 3
  {
    match (Value(q0), Value(q1))
    case (Some(d0), Some(d1)) =>
      if q2 == Pad then
        (if q3 == Pad then Some(Combine(d0, d1, 0, 0)[..1]) else None)
      else if q3 == Pad then
        (match Value(q2)
         case Some(d2) => Some(Combine(d0, d1, d2, 0)[..2])
         case None => None)
      else DecodeFull(q0, q1, q2, q3)
    case _ => None
  }

  /** Decoding once newlines are gone: whole quanta, padding only in the last one. */
  function DecodeQuanta(s: Bytes): (r: Option<Bytes>)
    ensures r.Some? ==> |s| % 4 == 0
    decreases |s|
  {
    if |s| == 0 then Some([])
    else if |s| < 4 then None
    else if |s| == 4 then DecodeLast(s[0], s[1], s[2], s[3])
    else
      match DecodeFull(s[0], s[1], s[2], s[3])
      case None => None
      case Some(head) =>
        match DecodeQuanta(s[4..])
        case None => None
        case Some(tail) => Some(head + tail)
  }

  /** `base64.URLEncoding.DecodeString`; None stands for a `CorruptInputError`. */
  function Decode(s: Bytes): (r: Option<Bytes>)
    ensures s == [] ==> r == Some([])
  {
    DecodeQuanta(SkipNewlines(s))
  }

  lemma BlockRoundTrip(a: Byte, b: Byte, c: Byte)
    ensures var e := EncodeBlock(a, b, c);
      DecodeFull(e[0], e[1], e[2], e[3]) == Some([a, b, c]) &&
      DecodeLast(e[0], e[1], e[2], e[3]) == Some([a, b, c])
  {
    ValueOfDigit(a >> 2);
    ValueOfDigit(((a & 3) << 4) | (b >> 4));
    ValueOfDigit(((b & 15) << 2) | (c >> 6));
    ValueOfDigit(c & 63);
  }

  lemma {:induction false} DecodeQuantaEncode(s: Bytes)
    ensures DecodeQuanta(Encode(s)) == Some(s)
    decreases |s|
  {
    if |s| == 1 {
      ValueOfDigit(s[0] >> 2);
      ValueOfDigit((s[0] & 3) << 4);
      var d0, d1 := s[0] >> 2, (s[0] & 3) << 4;
      assert Combine(d0, d1, 0, 0)[..1] == [s[0]];
      assert s == [s[0]];
    } else if |s| == 2 {
      ValueOfDigit(s[0] >> 2);
      ValueOfDigit(((s[0] & 3) << 4) | (s[1] >> 4));
      ValueOfDigit((s[1] & 15) << 2);
      var d0, d1, d2 := s[0] >> 2, ((s[0] & 3) << 4) | (s[1] >> 4), (s[1] & 15) << 2;
      assert Combine(d0, d1, d2, 0)[..2] == [s[0], s[1]];
      assert s == [s[0], s[1]];
    } else if |s| >= 3 {
      var e := Encode(s);
      var t := Encode(s[3..]);
      var b := EncodeBlock(s[0], s[1], s[2]);
      assert e == b + t;
      BlockRoundTrip(s[0], s[1], s[2]);
      if |s| == 3 {
        assert t == [] && e == b;
        assert DecodeQuanta(e) == DecodeLast(b[0], b[1], b[2], b[3]);
        assert s == [s[0], s[1], s[2]];
      } else {
        assert e[..4] == b && e[4..] == t;
        DecodeQuantaEncode(s[3..]);
        assert s == [s[0], s[1], s[2]] + s[3..];
      }
    }
  }

  /** Decoding undoes encoding: every byte string survives a round trip. */
  lemma EncodeThenDecode(s: Bytes)
    ensures Decode(Encode(s)) == Some(s)
  {
    SkipNewlinesNone(Encode(s));
    DecodeQuantaEncode(s);
  }

  /** The encoding of a non-empty byte string is non-empty, and only the empty string encodes to "". */
  lemma EncodeEmptyIff(s: Bytes)
    ensures Encode(s) == [] <==> s == []
  {
  }
}
