/** The "URL and Filename Safe" base 64 alphabet of section 5 of RFC 4648, padded as in
    section 3.2, as Go's base64.URLEncoding writes (EncodeToString) and reads (Decode) it.
    The reader is the canonical one: it does not skip CR and LF, and like Go's non-strict
    decoder it ignores the unused low bits of a padded final quantum. */
module Base64Url {
  import opened Bytes

  /** '=' */
  const Pad: byte := 61

  /** 'A'..'Z', 'a'..'z', '0'..'9', '-' and '_': the 64 characters of the URL-safe alphabet. */
  predicate IsUrlChar(c: byte) {
    (65 <= c <= 90) || (97 <= c <= 122) || (48 <= c <= 57) || c == 45 || c == 95
  }

  predicate AllUrlChars(s: Str) {
    forall i :: 0 <= i < |s| ==> IsUrlChar(s[i])
  }

  /** The character of a 6-bit value (table 2 of RFC 4648, with '-' and '_' for 62 and 63). */
  function EncodeSextet(v: int): (c: byte)
    requires 0 <= v < 64
    ensures IsUrlChar(c)
  {
    if v < 26 then (65 + v) as byte
    else if v < 52 then (97 + v - 26) as byte
    else if v < 62 then (48 + v - 52) as byte
    else if v == 62 then 45
    else 95
  }

  /** The 6-bit value of a character, if it belongs to the alphabet. */
  function DecodeSextet(c: byte): (r: Option<int>)
    ensures r.Some? <==> IsUrlChar(c)
    ensures r.Some? ==> 0 <= r.value < 64 && EncodeSextet(r.value) == c
  {
    if 65 <= c <= 90 then Some(c as int - 65)
    else if 97 <= c <= 122 then Some(c as int - 71)
    else if 48 <= c <= 57 then Some(c as int + 4)
    else if c == 45 then Some(62)
    else if c == 95 then Some(63)
    else None
  }

  lemma SextetRoundTrip(v: int)
    requires 0 <= v < 64
    ensures DecodeSextet(EncodeSextet(v)) == Some(v)
  {
  }

  /** Three bytes as four characters. */
  function EncodeQuantum(b0: byte, b1: byte, b2: byte): (q: Str)
    ensures |q| == 4 && AllUrlChars(q)
  {
    [EncodeSextet(b0 as int / 4),
     EncodeSextet(b0 as int % 4 * 16 + b1 as int / 16),
     EncodeSextet(b1 as int % 16 * 4 + b2 as int / 64),
     EncodeSextet(b2 as int % 64)]
  }

  /** The last one or two bytes, as two or three characters followed by padding. */
  function EncodeTail(b: seq<byte>): (q: Str)
    requires 1 <= |b| <= 2
    ensures |q| == 4 && q[3] == Pad && (q[2] == Pad <==> |b| == 1)
  {
    if |b| == 1 then
      [EncodeSextet(b[0] as int / 4), EncodeSextet(b[0] as int % 4 * 16), Pad, Pad]
    else
      [EncodeSextet(b[0] as int / 4),
       EncodeSextet(b[0] as int % 4 * 16 + b[1] as int / 16),
       EncodeSextet(b[1] as int % 16 * 4),
       Pad]
  }

  /** base64.URLEncoding.EncodeToString */
  function Encode(b: seq<byte>): (s: Str)
    ensures |s| == (|b| + 2) / 3 * 4
    ensures |b| % 3 == 0 ==> AllUrlChars(s)
    decreases |b|
  {
    if |b| == 0 then []
    else if |b| < 3 then EncodeTail(b)
    else EncodeQuantum(b[0], b[1], b[2]) + Encode(b[3..])
  }

  /** Four alphabet characters as three bytes. */
  function DecodeQuantum(q: Str): (r: Option<seq<byte>>)
    requires |q| == 4
    ensures r.Some? <==> AllUrlChars(q)
    ensures r.Some? ==> |r.value| == 3
  {
    match (DecodeSextet(q[0]), DecodeSextet(q[1]), DecodeSextet(q[2]), DecodeSextet(q[3]))
    case (Some(s0), Some(s1), Some(s2), Some(s3)) =>
      Some([(s0 * 4 + s1 / 16) as byte, (s1 % 16 * 16 + s2 / 4) as byte, (s2 % 4 * 64 + s3) as byte])
    case _ => None
  }

  /** The last quantum, which may end in "==" (one byte) or "=" (two bytes). */
  function DecodeFinal(q: Str): (r: Option<seq<byte>>)
    requires |q| == 4
  {
    if q[2] == Pad && q[3] == Pad then
      match (DecodeSextet(q[0]), DecodeSextet(q[1]))
      case (Some(s0), Some(s1)) => Some([(s0 * 4 + s1 / 16) as byte])
      case _ => None
    else if q[3] == Pad then
      match (DecodeSextet(q[0]), DecodeSextet(q[1]), DecodeSextet(q[2]))
      case (Some(s0), Some(s1), Some(s2)) => Some([(s0 * 4 + s1 / 16) as byte, (s1 % 16 * 16 + s2 / 4) as byte])
      case _ => None
    else
      DecodeQuantum(q)
  }

  /** base64.URLEncoding.Decode: the decoded bytes, or None for a CorruptInputError
      (a character outside the alphabet, misplaced or missing padding, a length that is
      not a multiple of four). */
  function Decode(s: Str): (r: Option<seq<byte>>)
    decreases |s|
  {
    if |s| == 0 then Some([])
    else if |s| < 4 then None
    else if |s| == 4 then DecodeFinal(s)
    else
      match DecodeQuantum(s[..4])
      case None => None
      case Some(g) =>
        match Decode(s[4..])
        case None => None
        case Some(rest) => Some(g + rest)
  }

  /** base64.URLEncoding.DecodedLen: the most bytes n padded characters can decode to. */
  function DecodedLen(n: nat): nat {
    n / 4 * 3
  }

  lemma QuantumRoundTrip(b0: byte, b1: byte, b2: byte)
    ensures DecodeQuantum(EncodeQuantum(b0, b1, b2)) == Some([b0, b1, b2])
  {
    var v0, v1, v2, v3 := b0 as int / 4, b0 as int % 4 * 16 + b1 as int / 16,
                          b1 as int % 16 * 4 + b2 as int / 64, b2 as int % 64;
    SextetRoundTrip(v0);
    SextetRoundTrip(v1);
    SextetRoundTrip(v2);
    SextetRoundTrip(v3);
    assert v0 * 4 + v1 / 16 == b0 as int;
    assert v1 % 16 * 16 + v2 / 4 == b1 as int;
    assert v2 % 4 * 64 + v3 == b2 as int;
  }

  lemma TailRoundTrip(b: seq<byte>)
    requires 1 <= |b| <= 2
    ensures DecodeFinal(EncodeTail(b)) == Some(b)
  {
    var v0 := b[0] as int / 4;
    SextetRoundTrip(v0);
    if |b| == 1 {
      var v1 := b[0] as int % 4 * 16;
      SextetRoundTrip(v1);
      assert v0 * 4 + v1 / 16 == b[0] as int;
      assert [b[0]] == b;
    } else {
      var v1, v2 := b[0] as int % 4 * 16 + b[1] as int / 16, b[1] as int % 16 * 4;
      SextetRoundTrip(v1);
      SextetRoundTrip(v2);
      assert v0 * 4 + v1 / 16 == b[0] as int;
      assert v1 % 16 * 16 + v2 / 4 == b[1] as int;
      assert [b[0], b[1]] == b;
    }
  }

  /** Four alphabet characters are the encoding of the three bytes they decode to. */
  lemma QuantumInverse(q: Str)
    requires |q| == 4 && AllUrlChars(q)
    ensures DecodeQuantum(q).Some?
    ensures var g := DecodeQuantum(q).value; EncodeQuantum(g[0], g[1], g[2]) == q
  {
    var s0, s1, s2, s3 := DecodeSextet(q[0]).value, DecodeSextet(q[1]).value,
                          DecodeSextet(q[2]).value, DecodeSextet(q[3]).value;
    var b0, b1, b2 := s0 * 4 + s1 / 16, s1 % 16 * 16 + s2 / 4, s2 % 4 * 64 + s3;
    assert b0 / 4 == s0;
    assert b0 % 4 * 16 + b1 / 16 == s1;
    assert b1 % 16 * 4 + b2 / 64 == s2;
    assert b2 % 64 == s3;
    var g := DecodeQuantum(q).value;
    assert g == [b0 as byte, b1 as byte, b2 as byte];
    var e := EncodeQuantum(g[0], g[1], g[2]);
    assert e == [EncodeSextet(s0), EncodeSextet(s1), EncodeSextet(s2), EncodeSextet(s3)];
    assert e == [q[0], q[1], q[2], q[3]];
  }

  /** Decoding inverts encoding, for every byte sequence. */
  lemma {:induction false} DecodeEncode(b: seq<byte>)
    ensures Decode(Encode(b)) == Some(b)
    decreases |b|
  {
    if |b| == 0 {
    } else if |b| < 3 {
      TailRoundTrip(b);
    } else {
      var q, rest := EncodeQuantum(b[0], b[1], b[2]), Encode(b[3..]);
      QuantumRoundTrip(b[0], b[1], b[2]);
      assert Encode(b) == q + rest;
      if |b| == 3 {
        assert rest == [] && Encode(b) == q;
        assert q[3] != Pad;
        assert [b[0], b[1], b[2]] == b;
      } else {
        DecodeEncode(b[3..]);
        assert (q + rest)[..4] == q;
        assert (q + rest)[4..] == rest;
        SplitThree(b);
      }
    }
  }

  /** A padding-free string of alphabet characters whose length is a multiple of four
      decodes, to three bytes per quantum, and is the encoding of what it decodes to. */
  lemma {:induction false} EncodeDecode(s: Str)
    requires |s| % 4 == 0 && AllUrlChars(s)
    ensures Decode(s).Some?
    ensures |Decode(s).value| == DecodedLen(|s|)
    ensures Encode(Decode(s).value) == s
    decreases |s|
  {
    if |s| == 4 {
      QuantumInverse(s);
      assert s[3] != Pad;
      var g := DecodeQuantum(s).value;
      assert g == [g[0], g[1], g[2]];
      assert g[3..] == [];
    } else if |s| > 4 {
      var q, rest := s[..4], s[4..];
      assert AllUrlChars(q) && AllUrlChars(rest);
      QuantumInverse(q);
      EncodeDecode(rest);
      var g, r := DecodeQuantum(q).value, Decode(rest).value;
      assert Decode(s).value == g + r;
      var b := g + r;
      assert b[0] == g[0] && b[1] == g[1] && b[2] == g[2];
      assert b[3..] == r;
      assert Encode(b) == EncodeQuantum(g[0], g[1], g[2]) + Encode(r);
      assert q + rest == s;
    }
  }

  /** What a successful decode says about its input: whole quanta, at most three bytes
      each, and the full three bytes per quantum only when no padding was used. */
  lemma {:induction false} DecodeLength(s: Str)
    requires Decode(s).Some?
    ensures |s| % 4 == 0
    ensures DecodedLen(|s|) - 2 <= |Decode(s).value| <= DecodedLen(|s|)
    ensures |Decode(s).value| == DecodedLen(|s|) ==> AllUrlChars(s)
    decreases |s|
  {
    if |s| == 4 {
      if !(s[2] == Pad && s[3] == Pad) && s[3] != Pad {
        assert AllUrlChars(s);
      }
    } else if |s| > 4 {
      var q, rest := s[..4], s[4..];
      DecodeLength(rest);
      assert AllUrlChars(q);
      if |Decode(s).value| == DecodedLen(|s|) {
        assert AllUrlChars(rest);
        forall i | 0 <= i < |s|
          ensures IsUrlChar(s[i])
        {
          if i < 4 { assert s[i] == q[i]; } else { assert s[i] == rest[i - 4]; }
        }
      }
    }
  }
}
