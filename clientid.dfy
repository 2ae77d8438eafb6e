/** The client identity of clientid.go: 24 bytes, written as 32 characters of
    base64url text in the X-Specht-Id header. */
module ClientIds {
  import opened Bytes
  import opened Base64Url

  /** clientid.go `length` */
  const IdLength: nat := 24

  type ClientId = s: seq<byte> | |s| == IdLength witness seq(IdLength, _ => 0 as byte)

  /** The three errors ClientId.Set returns. */
  datatype IdError =
    | WrongIdStringLength(n: nat)   // DecodedLen(len(s)) is not 24
    | CorruptInput                  // the base64 decoder rejected the text
    | WrongDecodedLength(n: nat)    // the text decoded to n bytes, not 24

  /** ClientId.String */
  function Format(c: ClientId): (s: Str)
    ensures |s| == 32 && AllUrlChars(s)
    ensures Pad !in s
  {
    Encode(c)
  }

  /** ClientId.Set as a value: the identity the receiver holds afterwards, or the error. */
  function Parse(s: Str): Result<ClientId, IdError> {
    if DecodedLen(|s|) != IdLength then Failure(WrongIdStringLength(|s|))
    else
      match Decode(s)
      case None => Failure(CorruptInput)
      case Some(d) => if |d| != IdLength then Failure(WrongDecodedLength(|d|)) else Success(d)
  }

  /** Set(String(c)) succeeds and restores exactly c. */
  lemma ParseFormat(c: ClientId)
    ensures Parse(Format(c)) == Success(c)
  {
    DecodeEncode(c);
  }

  /** Set accepts exactly the 32-character strings over the URL-safe alphabet, which are
      just the String forms of identities. */
  lemma ParseAccepts(s: Str)
    ensures Parse(s).Success? <==> |s| == 32 && AllUrlChars(s)
    ensures Parse(s).Success? ==> Format(Parse(s).value) == s
  {
    if |s| == 32 && AllUrlChars(s) {
      EncodeDecode(s);
    }
    if Parse(s).Success? {
      DecodeLength(s);
    }
  }

  /** The length check comes first: anything but 32 to 35 characters (a 10-character
      string, say) is refused for its length, before any decoding. */
  lemma ParseRejectsLength(s: Str)
    requires |s| < 32 || |s| > 35
    ensures Parse(s) == Failure(WrongIdStringLength(|s|))
  {
  }

  /** Which inputs reach the two later errors: invalid base64 among 32 to 35 characters,
      and a padded 32-character string, which decodes to 22 or 23 bytes. */
  lemma ParseErrors(s: Str)
    ensures Parse(s) == Failure(CorruptInput) <==> 32 <= |s| <= 35 && Decode(s).None?
    ensures Parse(s).Failure? && Parse(s).error.WrongDecodedLength? ==>
              |s| == 32 && (Parse(s).error.n == 22 || Parse(s).error.n == 23)
  {
    if Decode(s).Some? {
      DecodeLength(s);
    }
  }

  /** ClientId.Set on the receiver's array: the text is decoded into a local array, which
      is copied into the receiver only on success; every error leaves the receiver as it was. */
  method Set(c: array<byte>, s: Str) returns (err: Option<IdError>)
    requires c.Length == IdLength
    modifies c
    ensures Parse(s).Success? ==> err == None && c[..] == Parse(s).value
    ensures Parse(s).Failure? ==> err == Some(Parse(s).error) && c[..] == old(c[..])
  {
    if DecodedLen(|s|) != IdLength {
      return Some(WrongIdStringLength(|s|));
    }
    var d := new byte[IdLength];
    var decoded := Decode(s);
    if decoded.None? {
      return Some(CorruptInput);
    }
    var bytes := decoded.value;
    DecodeLength(s);
    var n := |bytes|;
    for i := 0 to n
      modifies d
      invariant forall k :: 0 <= k < i ==> d[k] == bytes[k]
    {
      d[i] := bytes[i];
    }
    if n != IdLength {
      return Some(WrongDecodedLength(n));
    }
    for i := 0 to IdLength
      invariant forall k :: 0 <= k < IdLength ==> d[k] == bytes[k]
      invariant forall k :: 0 <= k < i ==> c[k] == d[k]
    {
      c[i] := d[i];
    }
    assert c[..] == bytes;
    err := None;
  }
}
