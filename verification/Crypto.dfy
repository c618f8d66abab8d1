/**
 Envelope encryption: a root key seals data keys, a data key seals secrets.

 The cipher itself is a parameter. All that is used of it is that opening
 undoes sealing and that sealing adds a 16-byte tag (section 5.2 of RFC 5116);
 the framing around it, [nonce(12) | ciphertext+tag], is concrete.
 */
module Crypto {
  import opened Prelude

  type Byte = x: int | 0 <= x < 256
  type Bytes = seq<Byte>

  const NONCE_SIZE := 12
  const TAG_SIZE := 16
  const KEY_SIZE := 32

  datatype RawAead = RawAead(
    // key, nonce, plaintext
    seal: (Bytes, Bytes, Bytes) -> Bytes,
    // key, nonce, ciphertext
    open: (Bytes, Bytes, Bytes) -> Option<Bytes>)

  ghost predicate Lawful(a: RawAead) {
    && (forall k: Bytes, n: Bytes, p: Bytes | |n| == NONCE_SIZE :: a.open(k, n, a.seal(k, n, p)) == Some(p))
    && (forall k: Bytes, n: Bytes, p: Bytes | |n| == NONCE_SIZE :: |a.seal(k, n, p)| == |p| + TAG_SIZE)
  }

  // A lawful cipher exists: pad, and cut off the padding.
  function PadSeal(k: Bytes, n: Bytes, p: Bytes): Bytes {
    p + seq(TAG_SIZE, _ => 0)
  }

  function PadOpen(k: Bytes, n: Bytes, c: Bytes): Option<Bytes> {
    if |c| < TAG_SIZE then None else Some(c[..|c| - TAG_SIZE])
  }

  type Aead = a: RawAead | Lawful(a) witness PadAead()

  function PadAead(): (a: RawAead)
    ensures Lawful(a)
  {
    var a := RawAead(PadSeal, PadOpen);
    assert forall k: Bytes, n: Bytes, p: Bytes :: PadSeal(k, n, p)[..|p|] == p;
    a
  }

  // aes.NewCipher takes no other key length.
  predicate IsKey(key: Bytes) {
    |key| == 16 || |key| == 24 || |key| == 32
  }

  function Frame(a: Aead, key: Bytes, nonce: Bytes, plaintext: Bytes): Bytes {
    nonce + a.seal(key, nonce, plaintext)
  }

  function Decrypt(a: Aead, key: Bytes, data: Bytes): Result<Bytes, string> {
    if !IsKey(key) then Err("invalid key size")
    else if |data| < NONCE_SIZE then Err("ciphertext too short")
    else
      match a.open(key, data[..NONCE_SIZE], data[NONCE_SIZE..])
      case None => Err("message authentication failed")
      case Some(p) => Ok(p)
  }

  // Decrypting what was encrypted gives it back, and the stored form is 28 bytes longer: a stored
  // ciphertext is never empty.
  lemma FrameRoundTrip(a: Aead, key: Bytes, nonce: Bytes, plaintext: Bytes)
    requires IsKey(key) && |nonce| == NONCE_SIZE
    ensures Decrypt(a, key, Frame(a, key, nonce, plaintext)) == Ok(plaintext)
    ensures |Frame(a, key, nonce, plaintext)| == 12 + |plaintext| + 16
    ensures Frame(a, key, nonce, plaintext)[..12] == nonce
    ensures Frame(a, key, nonce, plaintext)[12..] == a.seal(key, nonce, plaintext)
  {
    var data := Frame(a, key, nonce, plaintext);
    assert data[..NONCE_SIZE] == nonce && data[NONCE_SIZE..] == a.seal(key, nonce, plaintext);
  }

  // rand.Reader: the bytes it will still deliver.
  class RandomReader {
    var left: Bytes

    constructor (bytes: Bytes)
      ensures left == bytes
    {
      left := bytes;
    }

    // io.ReadFull: fills the buffer or fails.
    method ReadFull(buf: array<Byte>) returns (ok: bool)
      modifies this, buf
      ensures ok <==> buf.Length <= |old(left)|
      ensures ok ==> buf[..] == old(left)[..buf.Length] && left == old(left)[buf.Length..]
    {
      var i := 0;
      while i < buf.Length && i < |left|
        invariant 0 <= i <= buf.Length && i <= |left| && left == old(left)
        invariant forall k | 0 <= k < i :: buf[k] == left[k]
      {
        buf[i] := left[i];
        i := i + 1;
      }
      ok := i == buf.Length;
      left := left[i..];
    }
  }

  // encrypt: a fresh nonce is drawn, and the sealed plaintext is appended to it.
  method Encrypt(a: Aead, random: RandomReader, key: Bytes, plaintext: Bytes) returns (r: Result<Bytes, string>)
    modifies random
    ensures r.Ok? <==> IsKey(key) && NONCE_SIZE <= |old(random.left)|
    ensures r.Ok? ==> r.value == Frame(a, key, old(random.left)[..NONCE_SIZE], plaintext)
                      && random.left == old(random.left)[NONCE_SIZE..]
    ensures r.Ok? ==> Decrypt(a, key, r.value) == Ok(plaintext)
                      && |r.value| == NONCE_SIZE + |plaintext| + TAG_SIZE
  {
    if !IsKey(key) {
      return Err("invalid key size");
    }
    var nonce := new Byte[NONCE_SIZE];
    var ok := random.ReadFull(nonce);
    if !ok {
      return Err("unexpected EOF");
    }
    FrameRoundTrip(a, key, nonce[..], plaintext);
    r := Ok(nonce[..] + a.seal(key, nonce[..], plaintext));
  }

  class Encryptor {
    const aead: Aead
    const rootKey: Bytes

    constructor (aead: Aead, rootKey: Bytes)
      requires |rootKey| == KEY_SIZE
      ensures this.aead == aead && this.rootKey == rootKey
    {
      this.aead, this.rootKey := aead, rootKey;
    }

    function DecryptDataKey(encrypted: Bytes): Result<Bytes, string> {
      Decrypt(aead, rootKey, encrypted)
    }

    // The data key, which is the next 32 random bytes, in clear and sealed under the root key with the 12
    // after them; the sealed form opens to the clear one.
    method GenerateDataKey(random: RandomReader) returns (r: Result<(Bytes, Bytes), string>)
      requires |rootKey| == KEY_SIZE
      modifies random
      ensures r.Ok? <==> 32 + 12 <= |old(random.left)|
      ensures r.Ok? ==> r.value.0 == old(random.left)[..32] && DecryptDataKey(r.value.1) == Ok(r.value.0)
                        && random.left == old(random.left)[32 + 12..]
    {
      var key := new Byte[KEY_SIZE];
      var ok := random.ReadFull(key);
      if !ok {
        return Err("unexpected EOF");
      }
      assert random.left == old(random.left)[KEY_SIZE..];
      var sealed := Encrypt(aead, random, rootKey, key[..]);
      match sealed {
        case Err(e) => r := Err(e);
        case Ok(encrypted) =>
          assert random.left == old(random.left)[KEY_SIZE + NONCE_SIZE..];
          r := Ok((key[..], encrypted));
      }
    }
  }
}
