/** Base64 with the standard alphabet and `=` padding, section 4 of RFC 4648,
    as `base64.b64encode` and `base64.b64decode` apply it to bytes. Text is
    represented by its ASCII codes, as the Python functions return `bytes`. */
module Base64 {
  import opened Outcomes

  const PadByte: Byte := 61  // '='

  /** The alphabet of section 4 of RFC 4648: A-Z, a-z, 0-9, '+', '/'. */
  predicate IsAlphabet(c: Byte)
  {
    (65 <= c <= 90) || (97 <= c <= 122) || (48 <= c <= 57) || c == 43 || c == 47
  }

  /** The character that encodes a 6-bit value. */
  function SextetChar(v: int): (c: Byte)
    requires 0 <= v < 64
    ensures IsAlphabet(c)
  {
    if v < 26 then 65 + v
    else if v < 52 then 97 + (v - 26)
    else if v < 62 then 48 + (v - 52)
    else if v == 62 then 43
    else 47
  }

  /** The 6-bit value a character encodes, if it is in the alphabet. */
  function CharSextet(c: Byte): (r: Option<int>)
    ensures r.Some? <==> IsAlphabet(c)
    ensures r.Some? ==> 0 <= r.value < 64 && SextetChar(r.value) == c
  {
    if 65 <= c <= 90 then Some(c - 65)
    else if 97 <= c <= 122 then Some(c - 97 + 26)
    else if 48 <= c <= 57 then Some(c - 48 + 52)
    else if c == 43 then Some(62)
    else if c == 47 then Some(63)
    else None
  }

  lemma SextetRoundTrip(v: int)
    requires 0 <= v < 64
    ensures CharSextet(SextetChar(v)) == Some(v)
  {
  }

  /** The four characters that encode three bytes. */
  function EncodeTriple(b0: Byte, b1: Byte, b2: Byte): seq<Byte>
  {
    [SextetChar(b0 / 4), SextetChar((b0 % 4) * 16 + b1 / 16),
     SextetChar((b1 % 16) * 4 + b2 / 64), SextetChar(b2 % 64)]
  }

  /** `base64.b64encode(data)`. */
  function Encode(data: seq<Byte>): (r: seq<Byte>)
    ensures |r| == 4 * ((|data| + 2) / 3)
    ensures forall i :: 0 <= i < |r| ==> r[i] < 128
    decreases |data|
  {
    if |data| == 0 then []
    else if |data| == 1 then
      [SextetChar(data[0] / 4), SextetChar((data[0] % 4) * 16), PadByte, PadByte]
    else if |data| == 2 then
      [SextetChar(data[0] / 4), SextetChar((data[0] % 4) * 16 + data[1] / 16),
       SextetChar((data[1] % 16) * 4), PadByte]
    else EncodeTriple(data[0], data[1], data[2]) + Encode(data[3..])
  }

  /** The three bytes four alphabet characters stand for. */
  function DecodeQuad(c0: int, c1: int, c2: int, c3: int): seq<Byte>
    requires 0 <= c0 < 64 && 0 <= c1 < 64 && 0 <= c2 < 64 && 0 <= c3 < 64
  {
    [c0 * 4 + c1 / 16, (c1 % 16) * 16 + c2 / 4, (c2 % 4) * 64 + c3]
  }

  /** The last group of four characters, which may end in one or two `=`. */
  function DecodeLast(q: seq<Byte>): Option<seq<Byte>>
    requires |q| == 4
  {
    var s0, s1 := CharSextet(q[0]), CharSextet(q[1]);
    if s0.None? || s1.None? then None
    else if q[2] == PadByte && q[3] == PadByte then
      Some(DecodeQuad(s0.value, s1.value, 0, 0)[..1])
    else
      var s2 := CharSextet(q[2]);
      if s2.None? then None
      else if q[3] == PadByte then Some(DecodeQuad(s0.value, s1.value, s2.value, 0)[..2])
      else
        var s3 := CharSextet(q[3]);
        if s3.None? then None else Some(DecodeQuad(s0.value, s1.value, s2.value, s3.value))
  }

  /** A group of four characters before the last one: no padding allowed. */
  function DecodeInner(q: seq<Byte>): Option<seq<Byte>>
    requires |q| == 4
  {
    var s0, s1, s2, s3 := CharSextet(q[0]), CharSextet(q[1]), CharSextet(q[2]), CharSextet(q[3]);
    if s0.None? || s1.None? || s2.None? || s3.None? then None
    else Some(DecodeQuad(s0.value, s1.value, s2.value, s3.value))
  }

  /** `base64.b64decode(text)` on canonical input; `None` where Python raises
      `binascii.Error`. */
  function Decode(text: seq<Byte>): Option<seq<Byte>>
    decreases |text|
  {
    if |text| == 0 then Some([])
    else if |text| < 4 then None
    else if |text| == 4 then DecodeLast(text)
    else
      match DecodeInner(text[..4])
      case None => None
      case Some(head) =>
        match Decode(text[4..])
        case None => None
        case Some(tail) => Some(head + tail)
  }

  lemma TripleRoundTrip(b0: Byte, b1: Byte, b2: Byte)
    ensures DecodeInner(EncodeTriple(b0, b1, b2)) == Some([b0, b1, b2])
    ensures DecodeLast(EncodeTriple(b0, b1, b2)) == Some([b0, b1, b2])
  {
    var c0, c1, c2, c3 := b0 / 4, (b0 % 4) * 16 + b1 / 16, (b1 % 16) * 4 + b2 / 64, b2 % 64;
    SextetRoundTrip(c0);
    SextetRoundTrip(c1);
    SextetRoundTrip(c2);
    SextetRoundTrip(c3);
    assert c1 / 16 == b0 % 4 && c1 % 16 == b1 / 16;
    assert c2 / 4 == b1 % 16 && c2 % 4 == b2 / 64;
    assert DecodeQuad(c0, c1, c2, c3) == [b0, b1, b2];
  }

  lemma OneByteRoundTrip(data: seq<Byte>)
    requires |data| == 1
    ensures Decode(Encode(data)) == Some(data)
  {
    var c0, c1 := data[0] / 4, (data[0] % 4) * 16;
    SextetRoundTrip(c0);
    SextetRoundTrip(c1);
    assert c1 / 16 == data[0] % 4;
    assert DecodeQuad(c0, c1, 0, 0)[..1] == data;
  }

  lemma PairRoundTrip(b0: Byte, b1: Byte)
    ensures DecodeLast([SextetChar(b0 / 4), SextetChar((b0 % 4) * 16 + b1 / 16),
                        SextetChar((b1 % 16) * 4), PadByte]) == Some([b0, b1])
  {
    var c0, c1, c2 := b0 / 4, (b0 % 4) * 16 + b1 / 16, (b1 % 16) * 4;
    SextetRoundTrip(c0);
    SextetRoundTrip(c1);
    SextetRoundTrip(c2);
    assert c1 / 16 == b0 % 4 && c1 % 16 == b1 / 16;
    assert c2 / 4 == b1 % 16 && c2 % 4 == 0;
    assert DecodeQuad(c0, c1, c2, 0)[..2] == [b0, b1];
  }

  lemma TwoByteRoundTrip(data: seq<Byte>)
    requires |data| == 2
    ensures Decode(Encode(data)) == Some(data)
  {
    PairRoundTrip(data[0], data[1]);
    assert data == [data[0], data[1]];
  }

  /** Decoding what `Encode` produced gives back the bytes (RFC 4648 section 4). */
  lemma {:induction false} DecodeEncode(data: seq<Byte>)
    ensures Decode(Encode(data)) == Some(data)
    decreases |data|
  {
    if |data| == 1 {
      OneByteRoundTrip(data);
    } else if |data| == 2 {
      TwoByteRoundTrip(data);
    } else if |data| >= 3 {
      var triple := [data[0], data[1], data[2]];
      var head := EncodeTriple(data[0], data[1], data[2]);
      var rest := Encode(data[3..]);
      TripleRoundTrip(data[0], data[1], data[2]);
      assert Encode(data) == head + rest;
      assert data == triple + data[3..];
      if |data| == 3 {
        assert data[3..] == [];
        assert rest == [];
        assert head + rest == head;
        assert |head| == 4;
        assert Decode(head) == DecodeLast(head);
        assert data == triple;
      } else {
        DecodeEncode(data[3..]);
        var text := head + rest;
        assert |text| > 4;
        assert text[..4] == head;
        assert text[4..] == rest;
      }
    }
  }

  /** Text whose length is not a multiple of 4 is refused. */
  lemma {:induction false} DecodeLength(text: seq<Byte>)
    requires |text| % 4 != 0
    ensures Decode(text).None?
    decreases |text|
  {
    if |text| > 4 {
      DecodeLength(text[4..]);
    }
  }
}
