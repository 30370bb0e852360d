/** The envelope cipher over an abstract AEAD.  A string stands for a byte sequence. */
module Crypto {
  import opened Wrappers

  type Bytes = string

  const VERSION_1: char := '\U{01}'
  const NONCE_SIZE: nat := 12

  datatype Aead = Aead(seal: (Bytes, Bytes) -> Bytes, open: (Bytes, Bytes) -> Option<Bytes>)

  /** Opening what was sealed under the same nonce gives the plaintext back. */
  ghost predicate Opens(a: Aead) {
    forall nonce, text :: |nonce| == NONCE_SIZE ==> a.open(nonce, a.seal(nonce, text)) == Some(text)
  }

  /** `a` authenticates: it never opens what `b` sealed. */
  ghost predicate Refuses(a: Aead, b: Aead) {
    forall nonce, text :: |nonce| == NONCE_SIZE ==> a.open(nonce, b.seal(nonce, text)) == None
  }

  /** `decrypters` holds the primary first, then the old keys. */
  datatype Cipher = Cipher(primary: Aead, decrypters: seq<Aead>)

  /** A missing cipher is an unset master key. */
  function Encrypt(c: Option<Cipher>, nonce: Bytes, text: Bytes): Option<Bytes> {
    if c == None then None else Some([VERSION_1] + nonce + c.value.primary.seal(nonce, text))
  }

  /** The first key that opens the body. */
  function FirstOpen(keys: seq<Aead>, nonce: Bytes, body: Bytes): Option<Bytes> {
    if keys == [] then None
    else if keys[0].open(nonce, body).Some? then keys[0].open(nonce, body)
    else FirstOpen(keys[1..], nonce, body)
  }

  function Decrypt(c: Option<Cipher>, sealed: Bytes): Option<Bytes> {
    if c == None || |sealed| < 1 + NONCE_SIZE || sealed[0] != VERSION_1 then None
    else FirstOpen(c.value.decrypters, sealed[1..1 + NONCE_SIZE], sealed[1 + NONCE_SIZE..])
  }

  method TryKeys(c: Option<Cipher>, sealed: Bytes) returns (text: Option<Bytes>)
    ensures text == Decrypt(c, sealed)
  {
    if c == None || |sealed| < 1 + NONCE_SIZE || sealed[0] != VERSION_1 {
      return None;
    }
    var nonce, body := sealed[1..1 + NONCE_SIZE], sealed[1 + NONCE_SIZE..];
    var keys := c.value.decrypters;
    for i := 0 to |keys|
      invariant FirstOpen(keys, nonce, body) == FirstOpen(keys[i..], nonce, body)
    {
      var result := keys[i].open(nonce, body);
      if result.Some? {
        return result;
      }
    }
    return None;
  }

  /** Key `k` is the first that opens the body, to the text. */
  predicate FirstKey(keys: seq<Aead>, k: nat, nonce: Bytes, body: Bytes, text: Bytes)
    requires k < |keys|
  {
    keys[k].open(nonce, body) == Some(text) && forall i :: 0 <= i < k ==> keys[i].open(nonce, body) == None
  }

  lemma {:induction false} FirstOpenExactly(keys: seq<Aead>, nonce: Bytes, body: Bytes, text: Bytes)
    ensures FirstOpen(keys, nonce, body) == Some(text)
       <==> exists k :: 0 <= k < |keys| && FirstKey(keys, k, nonce, body, text)
  {
    if keys == [] {
    } else {
      var rest := keys[1..];
      FirstOpenExactly(rest, nonce, body, text);
      forall k | 0 < k < |keys| && FirstKey(keys, k, nonce, body, text) ensures keys[0].open(nonce, body) == None {
      }
      if keys[0].open(nonce, body) == None {
        forall k | 0 <= k < |rest| && FirstKey(rest, k, nonce, body, text)
          ensures FirstKey(keys, k + 1, nonce, body, text)
        {
        }
        forall k | 0 <= k < |keys| && FirstKey(keys, k, nonce, body, text)
          ensures k > 0 && FirstKey(rest, k - 1, nonce, body, text)
        {
          forall i | 0 <= i < k - 1 ensures rest[i].open(nonce, body) == None {
            assert rest[i] == keys[i + 1];
          }
        }
      } else {
        if keys[0].open(nonce, body) == Some(text) {
          assert FirstKey(keys, 0, nonce, body, text);
        }
      }
    }
  }

  /** The envelope is the version, a nonce and a body. */
  predicate Envelope(sealed: Bytes, nonce: Bytes, body: Bytes) {
    |nonce| == NONCE_SIZE && sealed == [VERSION_1] + nonce + body
  }

  /** An envelope decrypts to a text exactly when the first key that opens its body under its nonce gives that text. */
  lemma DecryptExactly(c: Cipher, sealed: Bytes, text: Bytes)
    ensures Decrypt(Some(c), sealed) == Some(text)
       <==> exists nonce, body ::
              Envelope(sealed, nonce, body)
              && exists k :: 0 <= k < |c.decrypters| && FirstKey(c.decrypters, k, nonce, body, text)
  {
    hide FirstKey;
    forall nonce, body | Envelope(sealed, nonce, body)
      ensures |sealed| >= 1 + NONCE_SIZE && sealed[0] == VERSION_1
      ensures nonce == sealed[1..1 + NONCE_SIZE] && body == sealed[1 + NONCE_SIZE..]
    {
    }
    if |sealed| >= 1 + NONCE_SIZE && sealed[0] == VERSION_1 {
      var nonce, body := sealed[1..1 + NONCE_SIZE], sealed[1 + NONCE_SIZE..];
      assert Envelope(sealed, nonce, body);
      FirstOpenExactly(c.decrypters, nonce, body, text);
    }
  }

  lemma {:induction false} SkipsOtherKeys(keys: seq<Aead>, k: nat, nonce: Bytes, text: Bytes)
    requires k < |keys| && |nonce| == NONCE_SIZE && Opens(keys[k])
    requires forall i :: 0 <= i < k ==> Refuses(keys[i], keys[k])
    ensures FirstOpen(keys, nonce, keys[k].seal(nonce, text)) == Some(text)
  {
    if k > 0 {
      assert Refuses(keys[0], keys[k]);
      assert keys[1..][k - 1] == keys[k];
      SkipsOtherKeys(keys[1..], k - 1, nonce, text);
    }
  }

  /** What one cipher encrypts, any cipher that holds its key and refuses it under every key tried before decrypts. */
  lemma RotatedKeysStillOpen(writer: Cipher, reader: Cipher, k: nat, nonce: Bytes, text: Bytes)
    requires k < |reader.decrypters| && reader.decrypters[k] == writer.primary && Opens(writer.primary)
    requires |nonce| == NONCE_SIZE
    requires forall i :: 0 <= i < k ==> Refuses(reader.decrypters[i], writer.primary)
    ensures Encrypt(Some(writer), nonce, text).Some?
    ensures Decrypt(Some(reader), Encrypt(Some(writer), nonce, text).value) == Some(text)
  {
    var body := writer.primary.seal(nonce, text);
    var sealed := [VERSION_1] + nonce + body;
    assert sealed[1..1 + NONCE_SIZE] == nonce && sealed[1 + NONCE_SIZE..] == body;
    SkipsOtherKeys(reader.decrypters, k, nonce, text);
  }

  ghost predicate Sound(c: Cipher) { |c.decrypters| > 0 && c.decrypters[0] == c.primary && Opens(c.primary) }

  lemma DecryptsOwn(c: Cipher, nonce: Bytes, text: Bytes)
    requires Sound(c) && |nonce| == NONCE_SIZE
    ensures Encrypt(Some(c), nonce, text).Some? && Decrypt(Some(c), Encrypt(Some(c), nonce, text).value) == Some(text)
  {
    RotatedKeysStillOpen(c, c, 0, nonce, text);
  }
}
