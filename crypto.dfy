/** crypto/crypto.go: a key pair and the framing of NaCl box messages as
    nonce(24) ++ sealed body. The box primitive itself is a parameter. */
module Crypto {
  import opened Bytes

  const KeySize: nat := 32
  const NonceSize: nat := 24

  type Key = k: seq<byte> | |k| == KeySize witness seq(KeySize, _ => 0 as byte)

  type Nonce = n: seq<byte> | |n| == NonceSize witness seq(NonceSize, _ => 0 as byte)

  /** The NaCl box primitive (Curve25519, XSalsa20-Poly1305), left uninterpreted:
      the public key of a private key, Seal(message, nonce, peer public key, own private key)
      and Open(sealed, nonce, peer public key, own private key), None when authentication fails. */
  datatype Box = Box(
    publicKey: Key -> Key,
    seal: (Str, Nonce, Key, Key) -> Str,
    open: (Str, Nonce, Key, Key) -> Option<Str>)

  /** The one property of the primitive the protocol relies on: what the holder of private
      key a seals to the public key of b, the holder of b opens with the public key of a. */
  ghost predicate Inverts(box: Box) {
    forall m, n, a, b :: box.open(box.seal(m, n, box.publicKey(b), a), n, box.publicKey(a), b) == Some(m)
  }

  /** crypto.Context */
  datatype Context = Context(pubKey: Key, privKey: Key)

  predicate KeyPair(box: Box, ctx: Context) {
    ctx.pubKey == box.publicKey(ctx.privKey)
  }

  datatype CryptoError =
    | RandomnessFailure          // rand.Reader could not be read
    | CiphertextTooShort(n: nat) // "ciphertext too short (%d)"
    | DecryptionError            // "decryption error": Open failed

  /** NewContext: box.GenerateKey; `entropy` is the private key drawn from rand.Reader,
      None when reading it fails. */
  function NewContext(box: Box, entropy: Option<Key>): (r: Result<Context, CryptoError>)
    ensures entropy.None? <==> r.Failure?
    ensures r.Failure? ==> r.error == RandomnessFailure
    ensures r.Success? ==> r.value.privKey == entropy.value && KeyPair(box, r.value)
  {
    match entropy
    case None => Failure(RandomnessFailure)
    case Some(priv) => Success(Context(box.publicKey(priv), priv))
  }

  /** Context.Encrypt: `nonce` is the fresh nonce read from rand.Reader (None when that fails);
      the ciphertext is the nonce followed by the sealed cleartext. */
  function Encrypt(box: Box, ctx: Context, peer: Key, nonce: Option<Nonce>, cleartext: Str): Result<Str, CryptoError> {
    match nonce
    case None => Failure(RandomnessFailure)
    case Some(n) => Success(n + box.seal(cleartext, n, peer, ctx.privKey))
  }

  /** Encryption fails exactly when no nonce could be read; otherwise the ciphertext is the
      nonce followed by the cleartext sealed under it to the peer. */
  lemma EncryptFraming(box: Box, ctx: Context, peer: Key, nonce: Option<Nonce>, cleartext: Str)
    ensures var r := Encrypt(box, ctx, peer, nonce, cleartext);
            && (nonce.None? <==> r.Failure?)
            && (r.Failure? ==> r.error == RandomnessFailure)
            && (r.Success? ==> |r.value| >= NonceSize && r.value[..NonceSize] == nonce.value)
            && (r.Success? ==> r.value[NonceSize..] == box.seal(cleartext, nonce.value, peer, ctx.privKey))
  {
  }

  /** Context.Decrypt: refuses input too short to hold a nonce, then opens the rest under
      the first 24 bytes as nonce. */
  function Decrypt(box: Box, ctx: Context, peer: Key, ciphertext: Str): Result<Str, CryptoError> {
    if |ciphertext| < NonceSize then Failure(CiphertextTooShort(|ciphertext|))
    else
      match box.open(ciphertext[NonceSize..], ciphertext[..NonceSize], peer, ctx.privKey)
      case None => Failure(DecryptionError)
      case Some(m) => Success(m)
  }

  /** Input shorter than a nonce is refused with its length; otherwise decryption succeeds
      exactly when the primitive opens the rest under the leading nonce, with what it opens. */
  lemma DecryptFraming(box: Box, ctx: Context, peer: Key, ciphertext: Str)
    ensures var r := Decrypt(box, ctx, peer, ciphertext);
            && (|ciphertext| < NonceSize <==> r == Failure(CiphertextTooShort(|ciphertext|)))
            && (|ciphertext| >= NonceSize ==>
                  var plain := box.open(ciphertext[NonceSize..], ciphertext[..NonceSize], peer, ctx.privKey);
                  && (r.Success? <==> plain.Some?)
                  && (r.Success? ==> r.value == plain.value)
                  && (r.Failure? ==> r.error == DecryptionError))
  {
  }

  /** What b encrypts to a's public key, a decrypts with b's public key. */
  lemma RoundTrip(box: Box, a: Context, b: Context, n: Nonce, m: Str)
    requires Inverts(box) && KeyPair(box, a) && KeyPair(box, b)
    ensures Encrypt(box, b, a.pubKey, Some(n), m).Success?
    ensures Decrypt(box, a, b.pubKey, Encrypt(box, b, a.pubKey, Some(n), m).value) == Success(m)
  {
    var c := Encrypt(box, b, a.pubKey, Some(n), m).value;
    assert c[..NonceSize] == n;
    assert c[NonceSize..] == box.seal(m, n, box.publicKey(a.privKey), b.privKey);
    assert box.open(box.seal(m, n, box.publicKey(a.privKey), b.privKey), n, box.publicKey(b.privKey), a.privKey) == Some(m);
  }

  /** Two encryptions under different nonces never produce the same ciphertext. */
  lemma DistinctNonces(box: Box, ctx: Context, peer: Key, n1: Nonce, n2: Nonce, m1: Str, m2: Str)
    requires n1 != n2
    ensures Encrypt(box, ctx, peer, Some(n1), m1) != Encrypt(box, ctx, peer, Some(n2), m2)
  {
    var c1, c2 := Encrypt(box, ctx, peer, Some(n1), m1).value, Encrypt(box, ctx, peer, Some(n2), m2).value;
    assert c1[..NonceSize] == n1 && c2[..NonceSize] == n2;
  }
}
