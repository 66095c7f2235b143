/**
 * The libsodium primitives the handshake calls (lib/encryption.js and
 * lib/crypto.js): secretbox encryption, anonymous sealed boxes and X25519
 * scalar multiplication.
 *
 * The real primitives are foreign code.  Their bodies here are a symbolic
 * stand-in with no cryptographic strength: they are chosen only so that the
 * contracts the source relies on hold and can be proved, namely
 *   - a secretbox opens under the nonce and key it was made with,
 *   - an opened secretbox is exactly one that was made with that nonce and key,
 *   - a box shorter than the MAC never opens,
 *   - a sealed box opens with the recipient's matching key pair, and not when it
 *     was sealed to another 32-byte key,
 *   - both ends of a Diffie-Hellman exchange derive the same shared key.
 * The rest of the model uses only these facts.
 */
module Sodium {
  import opened Wrappers

  newtype byte = x: int | 0 <= x < 256
  type Bytes = seq<byte>

  /** crypto_secretbox_NONCEBYTES and crypto_box_NONCEBYTES; both are 24 in libsodium. */
  const NONCE_LEN: nat := 24
  /** crypto_secretbox_MACBYTES. */
  const MAC_LEN: nat := 16
  /** Length of public, secret and shared keys. */
  const KEY_LEN: nat := 32
  /** crypto_box_SEALBYTES: an ephemeral public key plus a MAC. */
  const SEAL_LEN: nat := 48
  /** The u-coordinate of the Curve25519 base point. */
  const BASE: nat := 9

  /** Byte `i` of `s`, or 0 past its end. */
  function At(s: Bytes, i: nat): byte {
    if i < |s| then s[i] else 0
  }

  /** The authenticator a secretbox carries in front of its payload. */
  function Tag(nonce: Bytes, key: Bytes): (t: Bytes)
    ensures |t| == MAC_LEN
  {
    seq(MAC_LEN, i requires 0 <= i < MAC_LEN => ((At(nonce, i) as int + At(key, i) as int) % 256) as byte)
  }

  /** crypto_secretbox_easy (lib/encryption.js, `encrypt`). */
  function Encrypt(msg: Bytes, nonce: Bytes, key: Bytes): (box: Bytes)
    ensures |box| == |msg| + MAC_LEN
    ensures Decrypt(box, nonce, key) == Some(msg)
  {
    assert (Tag(nonce, key) + msg)[..MAC_LEN] == Tag(nonce, key);
    assert (Tag(nonce, key) + msg)[MAC_LEN..] == msg;
    Tag(nonce, key) + msg
  }

  /**
   * lib/encryption.js, `decrypt`: `None` when the box is shorter than the MAC
   * or when the library refuses to open it.
   */
  function Decrypt(box: Bytes, nonce: Bytes, key: Bytes): (msg: Option<Bytes>)
    ensures |box| < MAC_LEN ==> msg.None?
    ensures msg.Some? ==> |msg.value| + MAC_LEN == |box|
  {
    if |box| < MAC_LEN then None
    else if box[..MAC_LEN] == Tag(nonce, key) then Some(box[MAC_LEN..])
    else None
  }

  /** A box opens only if it is exactly the encryption of what it opens to. */
  lemma DecryptAuthentic(box: Bytes, nonce: Bytes, key: Bytes)
    requires Decrypt(box, nonce, key).Some?
    ensures Encrypt(Decrypt(box, nonce, key).value, nonce, key) == box
  {
    var m := Decrypt(box, nonce, key).value;
    assert box == box[..MAC_LEN] + box[MAC_LEN..];
    assert box[MAC_LEN..] == m;
  }

  /** crypto_scalarmult_base: the public key matching a secret key. */
  function PublicKeyOf(secretKey: Bytes): (publicKey: Bytes)
    ensures |publicKey| == KEY_LEN
  {
    seq(KEY_LEN, i requires 0 <= i < KEY_LEN => ((At(secretKey, i) as int * BASE) % 256) as byte)
  }

  /** crypto_scalarmult (lib/encryption.js, `scalarMultiplication`). */
  function ScalarMult(secretKey: Bytes, publicKey: Bytes): (shared: Bytes)
    ensures |shared| == KEY_LEN
  {
    seq(KEY_LEN, i requires 0 <= i < KEY_LEN => ((At(secretKey, i) as int * At(publicKey, i) as int) % 256) as byte)
  }

  lemma {:induction false} ModMultiple(a: nat, b: nat)
    ensures (a * 256 + b) % 256 == b % 256
  {
    if a > 0 {
      ModMultiple(a - 1, b);
      assert a * 256 + b == ((a - 1) * 256 + b) + 256;
    }
  }

  lemma MulMod(x: nat, y: nat)
    ensures (x * (y % 256)) % 256 == (x * y) % 256
  {
    var q, r := y / 256, y % 256;
    assert y == q * 256 + r;
    assert x * y == (x * q) * 256 + x * r;
    ModMultiple(x * q, x * r);
  }

  /** One byte of the shared key, computed from either side. */
  lemma SharedByteAgrees(x: nat, y: nat)
    ensures (x * ((y * BASE) % 256)) % 256 == (y * ((x * BASE) % 256)) % 256
  {
    MulMod(x, y * BASE);
    MulMod(y, x * BASE);
    assert x * (y * BASE) == (x * y) * BASE == y * (x * BASE);
  }

  /** Both parties of a Diffie-Hellman exchange derive the same shared key. */
  lemma SharedKeyAgrees(a: Bytes, b: Bytes)
    ensures ScalarMult(a, PublicKeyOf(b)) == ScalarMult(b, PublicKeyOf(a))
  {
    forall i | 0 <= i < KEY_LEN
      ensures ScalarMult(a, PublicKeyOf(b))[i] == ScalarMult(b, PublicKeyOf(a))[i]
    {
      var x, y: nat := At(a, i) as int, At(b, i) as int;
      assert At(PublicKeyOf(b), i) as int == (y * BASE) % 256;
      assert At(PublicKeyOf(a), i) as int == (x * BASE) % 256;
      SharedByteAgrees(x, y);
    }
  }

  /** The part of a sealed box that binds it to its recipient. */
  function SealHeader(publicKey: Bytes): (h: Bytes)
    ensures |h| == SEAL_LEN
  {
    seq(SEAL_LEN, i requires 0 <= i < SEAL_LEN => At(publicKey, i))
  }

  /** crypto_box_seal (lib/crypto.js, `seal`). */
  function Seal(msg: Bytes, publicKey: Bytes): (box: Bytes)
    ensures |box| == |msg| + SEAL_LEN
  {
    SealHeader(publicKey) + msg
  }

  /**
   * lib/crypto.js, `unseal`: `None` when the box is shorter than the seal
   * overhead or when the library refuses to open it.
   */
  function Unseal(box: Bytes, publicKey: Bytes, secretKey: Bytes): (msg: Option<Bytes>)
    ensures |box| < SEAL_LEN ==> msg.None?
    ensures msg.Some? ==> publicKey == PublicKeyOf(secretKey) && |msg.value| + SEAL_LEN == |box|
  {
    if |box| < SEAL_LEN then None
    else if box[..SEAL_LEN] == SealHeader(publicKey) && publicKey == PublicKeyOf(secretKey) then Some(box[SEAL_LEN..])
    else None
  }

  /** A box sealed to a key pair's public key opens with that key pair. */
  lemma UnsealSeal(msg: Bytes, secretKey: Bytes)
    ensures Unseal(Seal(msg, PublicKeyOf(secretKey)), PublicKeyOf(secretKey), secretKey) == Some(msg)
  {
    var box := Seal(msg, PublicKeyOf(secretKey));
    assert box[..SEAL_LEN] == SealHeader(PublicKeyOf(secretKey));
    assert box[SEAL_LEN..] == msg;
  }

  /** A box sealed to one 32-byte key does not open with another. */
  lemma UnsealWrongRecipient(msg: Bytes, sealedTo: Bytes, publicKey: Bytes, secretKey: Bytes)
    requires |sealedTo| == KEY_LEN && |publicKey| == KEY_LEN && sealedTo != publicKey
    ensures Unseal(Seal(msg, sealedTo), publicKey, secretKey).None?
  {
    var i :| 0 <= i < KEY_LEN && sealedTo[i] != publicKey[i];
    var box := Seal(msg, sealedTo);
    assert box[..SEAL_LEN][i] == sealedTo[i];
    assert SealHeader(publicKey)[i] == publicKey[i];
  }
}
