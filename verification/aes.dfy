/**
 * The AES storage codec of backend/utils/aes.go: the key-length gate, the
 * checks in front of the CBC call, and the `encrypt`/`decrypt` framing
 *   base64url( pad( IV ++ CBC_k,IV( pad(data, 16) ), 3 ) ).
 * The block cipher with CBC chaining (section 6.2 of NIST SP 800-38A) and the
 * base64url alphabet (section 5 of RFC 4648) are library code; they enter as a
 * `CipherSuite` of function values, and `Lawful` states the only facts about
 * them that the framing relies on.
 */
module Aes {
  import opened Wrappers
  import opened Octets
  import opened CodecErrors
  import opened Pkcs7

  /** `aes.BlockSize` */
  const BlockSize: int := 16
  /** `AES_IV_LENGTH` */
  const IvLength: int := 16
  /** the block size of the outer framing pad */
  const FrameBlock: int := 3

  predicate ValidKeyLength(n: int) {
    n == 16 || n == 24 || n == 32
  }

  /**
   * CBC encryption and decryption under a key and an IV, and base64url
   * encoding and decoding; the text side of base64 is held as bytes, the way
   * a Go string is.
   */
  datatype CipherSuite = CipherSuite(
    encryptCbc: (Bytes, Bytes, Bytes) -> Bytes,
    decryptCbc: (Bytes, Bytes, Bytes) -> Bytes,
    encode: Bytes -> Bytes,
    decode: Bytes -> Option<Bytes>)

  /** CBC preserves lengths and inverts itself on whole blocks; base64 decoding inverts encoding. */
  ghost predicate Lawful(suite: CipherSuite) {
    && (forall key, iv, src :: |suite.encryptCbc(key, iv, src)| == |src|)
    && (forall key, iv, src :: |suite.decryptCbc(key, iv, src)| == |src|)
    && (forall key, iv, src ::
          ValidKeyLength(|key|) && |iv| == BlockSize && |src| % BlockSize == 0 ==>
            suite.decryptCbc(key, iv, suite.encryptCbc(key, iv, src)) == src)
    && (forall b :: suite.decode(suite.encode(b)) == Some(b))
  }

  /** The identity suite satisfies `Lawful`, so the codec lemmas that assume it are not vacuous. */
  lemma IdentitySuiteIsLawful()
    ensures Lawful(CipherSuite((key, iv, src) => src, (key, iv, src) => src, b => b, b => Some(b)))
  {
  }

  /** `checkAesKey`: keys of 16, 24 or 32 bytes pass unchanged; any other length is reported. */
  function CheckAesKey(key: Bytes): (r: Outcome<Bytes>)
    ensures r.Ok? <==> |key| in {16, 24, 32}
    ensures r.Ok? ==> r.value == key
    ensures !r.Ok? ==> r == Err(InvalidKeyLength(|key|))
  {
    if ValidKeyLength(|key|) then Ok(key) else Err(InvalidKeyLength(|key|))
  }

  /**
   * The checks `aesEncrypt` and `aesDecrypt` make before `CryptBlocks`, in
   * their order: the key, the IV length (`cipher.NewCBCEncrypter` and
   * `NewCBCDecrypter` panic on a wrong one), whole source blocks, room in the
   * destination. `None` lets the call proceed.
   */
  function CbcGate(dst: Bytes, src: Bytes, key: Bytes, iv: Bytes): (r: Option<Outcome<Bytes>>)
    ensures r.None? <==> ValidKeyLength(|key|) && |iv| == BlockSize && |src| % BlockSize == 0 && |dst| >= |src|
    ensures !ValidKeyLength(|key|) ==> r == Some(Err(InvalidKeyLength(|key|)))
    ensures ValidKeyLength(|key|) && |iv| != BlockSize ==> r == Some(Panic)
    ensures ValidKeyLength(|key|) && |iv| == BlockSize && |src| % BlockSize != 0 ==>
              r == Some(Err(InvalidSrcBlock(|src|, BlockSize)))
    ensures ValidKeyLength(|key|) && |iv| == BlockSize && |src| % BlockSize == 0 && |dst| < |src| ==>
              r == Some(Err(InvalidDstBlock(|dst|, |src|)))
  {
    match CheckAesKey(key)
    case Err(e) => Some(Err(e))
    case Panic => Some(Panic)
    case Ok(_) =>
      if |iv| != BlockSize then Some(Panic)
      else if |src| % BlockSize != 0 then Some(Err(InvalidSrcBlock(|src|, BlockSize)))
      else if |dst| < |src| then Some(Err(InvalidDstBlock(|dst|, |src|)))
      else None
  }

  /** `aesEncrypt(dst, src, key, iv)`: the first `len(src)` bytes of `dst` receive the ciphertext. */
  function AesEncryptBlocks(dst: Bytes, src: Bytes, key: Bytes, iv: Bytes, suite: CipherSuite): (r: Outcome<Bytes>)
    ensures CbcGate(dst, src, key, iv).Some? ==> r == CbcGate(dst, src, key, iv).value
    ensures r.Ok? <==> CbcGate(dst, src, key, iv).None?
    ensures r.Ok? ==> r.value == suite.encryptCbc(key, iv, src) + dst[|src|..]
  {
    match CbcGate(dst, src, key, iv)
    case Some(failure) => failure
    case None => Ok(suite.encryptCbc(key, iv, src) + dst[|src|..])
  }

  /** `aesDecrypt(dst, src, key, iv)`: the same checks, then CBC decryption into `dst`. */
  function AesDecryptBlocks(dst: Bytes, src: Bytes, key: Bytes, iv: Bytes, suite: CipherSuite): (r: Outcome<Bytes>)
    ensures CbcGate(dst, src, key, iv).Some? ==> r == CbcGate(dst, src, key, iv).value
    ensures r.Ok? <==> CbcGate(dst, src, key, iv).None?
    ensures r.Ok? ==> r.value == suite.decryptCbc(key, iv, src) + dst[|src|..]
  {
    match CbcGate(dst, src, key, iv)
    case Some(failure) => failure
    case None => Ok(suite.decryptCbc(key, iv, src) + dst[|src|..])
  }

  /** The stored frame before base64: IV and ciphertext, padded to a multiple of 3. */
  function Frame(iv: Bytes, ciphertext: Bytes): (r: Bytes)
    ensures |r| % FrameBlock == 0
    ensures 1 <= |r| - |iv| - |ciphertext| <= FrameBlock
    ensures r[..|iv|] == iv
    ensures r[|iv|..|iv| + |ciphertext|] == ciphertext
  {
    var r := Pad(iv + ciphertext, FrameBlock);
    assert r[..|iv| + |ciphertext|] == iv + ciphertext;
    assert r[..|iv|] == (iv + ciphertext)[..|iv|];
    assert r[|iv|..|iv| + |ciphertext|] == (iv + ciphertext)[|iv|..];
    r
  }

  /**
   * `encrypt(data, key)` with the random IV supplied by the caller
   * (`crypto/rand` fills all 16 bytes). Only the key can make it fail.
   */
  function Encrypt(data: Bytes, key: Bytes, iv: Bytes, suite: CipherSuite): (r: Outcome<Bytes>)
    requires |iv| == IvLength
    ensures r.Ok? <==> ValidKeyLength(|key|)
    ensures !r.Ok? ==> r == Err(InvalidKeyLength(|key|))
    ensures r.Ok? ==> r.value == suite.encode(Frame(iv, suite.encryptCbc(key, iv, Pad(data, BlockSize))))
  {
    var src := Pad(data, BlockSize);
    assert Zeros(|src|)[|src|..] == [];
    var ciphertext :- AesEncryptBlocks(Zeros(|src|), src, key, iv, suite);
    assert ciphertext == suite.encryptCbc(key, iv, src);
    Ok(suite.encode(Frame(iv, ciphertext)))
  }

  /**
   * The first half of `decrypt`: base64url-decode, strip the 3-byte frame
   * pad and split off the 16-byte IV; a frame shorter than the IV panics on
   * the slice `encrypted[:AES_IV_LENGTH]`.
   */
  function OpenFrame(text: Bytes, suite: CipherSuite): (r: Outcome<(Bytes, Bytes)>)
    ensures suite.decode(text).None? ==> r == Err(CorruptBase64)
    ensures r.Ok? ==> |r.value.0| == IvLength
    ensures r != Err(KeyNotFound)
  {
    match suite.decode(text)
    case None => Err(CorruptBase64)
    case Some(encrypted) =>
      var framed :- Unpad(encrypted, FrameBlock);
      if |framed| < IvLength then Panic
      else Ok((framed[..IvLength], framed[IvLength..]))
  }

  /**
   * `decrypt(text, key)`: open the frame, CBC-decrypt the ciphertext with the
   * stored IV and strip the PKCS#7 pad.
   */
  function Decrypt(text: Bytes, key: Bytes, suite: CipherSuite): (r: Outcome<Bytes>)
    ensures suite.decode(text).None? ==> r == Err(CorruptBase64)
    ensures r.Ok? ==> ValidKeyLength(|key|)
    ensures r != Err(KeyNotFound)
  {
    var (iv, src) :- OpenFrame(text, suite);
    var padded :- AesDecryptBlocks(Zeros(|src|), src, key, iv, suite);
    Unpad(padded, BlockSize)
  }

  /** `AesEncrypt(data)`: the key comes from the `AES_KEY` environment variable. */
  function AesEncrypt(data: Bytes, envKey: Option<Bytes>, iv: Bytes, suite: CipherSuite): (r: Outcome<Bytes>)
    requires |iv| == IvLength
    ensures r == Err(KeyNotFound) <==> envKey.None?
    ensures envKey.Some? ==> r == Encrypt(data, envKey.value, iv, suite)
  {
    match envKey
    case None => Err(KeyNotFound)
    case Some(key) => Encrypt(data, key, iv, suite)
  }

  /** `AesDecrypt(text)`: the key comes from the `AES_KEY` environment variable. */
  function AesDecrypt(text: Bytes, envKey: Option<Bytes>, suite: CipherSuite): (r: Outcome<Bytes>)
    ensures r == Err(KeyNotFound) <==> envKey.None?
    ensures envKey.Some? ==> r == Decrypt(text, envKey.value, suite)
  {
    match envKey
    case None => Err(KeyNotFound)
    case Some(key) => Decrypt(text, key, suite)
  }

  /** Opening a stored frame gives back the IV and the ciphertext it was built from. */
  lemma OpenFrameOfFrame(iv: Bytes, ciphertext: Bytes, suite: CipherSuite)
    requires Lawful(suite)
    requires |iv| == IvLength
    ensures OpenFrame(suite.encode(Frame(iv, ciphertext)), suite) == Ok((iv, ciphertext))
  {
    var framed := iv + ciphertext;
    var stored := Frame(iv, ciphertext);
    assert stored == Pad(framed, FrameBlock);
    assert suite.decode(suite.encode(stored)) == Some(stored);
    UnpadPad(framed, FrameBlock);
    assert framed[..IvLength] == iv;
    assert framed[IvLength..] == ciphertext;
  }

  /** Decrypting a well-formed stored frame runs CBC decryption on its ciphertext part. */
  lemma DecryptFrame(iv: Bytes, ciphertext: Bytes, key: Bytes, suite: CipherSuite)
    requires Lawful(suite)
    requires ValidKeyLength(|key|) && |iv| == IvLength && |ciphertext| % BlockSize == 0
    ensures Decrypt(suite.encode(Frame(iv, ciphertext)), key, suite)
              == Unpad(suite.decryptCbc(key, iv, ciphertext), BlockSize)
  {
    OpenFrameOfFrame(iv, ciphertext, suite);
    DecryptOpened(suite.encode(Frame(iv, ciphertext)), iv, ciphertext, key, suite);
  }

  lemma DecryptOpened(text: Bytes, iv: Bytes, ciphertext: Bytes, key: Bytes, suite: CipherSuite)
    requires OpenFrame(text, suite) == Ok((iv, ciphertext))
    requires ValidKeyLength(|key|) && |iv| == IvLength && |ciphertext| % BlockSize == 0
    ensures Decrypt(text, key, suite) == Unpad(suite.decryptCbc(key, iv, ciphertext), BlockSize)
  {
    var plain := suite.decryptCbc(key, iv, ciphertext);
    assert Zeros(|ciphertext|)[|ciphertext|..] == [];
    assert plain + Zeros(|ciphertext|)[|ciphertext|..] == plain;
    assert AesDecryptBlocks(Zeros(|ciphertext|), ciphertext, key, iv, suite) == Ok(plain);
  }

  /** Decrypting what `encrypt` stored gives back the data, for every valid key and IV. */
  lemma RoundTrip(data: Bytes, key: Bytes, iv: Bytes, suite: CipherSuite)
    requires Lawful(suite)
    requires ValidKeyLength(|key|) && |iv| == IvLength
    ensures Encrypt(data, key, iv, suite).Ok?
    ensures Decrypt(Encrypt(data, key, iv, suite).value, key, suite) == Ok(data)
  {
    var src := Pad(data, BlockSize);
    var ciphertext := suite.encryptCbc(key, iv, src);
    assert |ciphertext| == |src|;
    assert Encrypt(data, key, iv, suite).value == suite.encode(Frame(iv, ciphertext));
    DecryptFrame(iv, ciphertext, key, suite);
    assert suite.decryptCbc(key, iv, ciphertext) == src;
    UnpadPad(data, BlockSize);
  }

  /** The same round trip through the exported functions, when `AES_KEY` is set. */
  lemma EnvRoundTrip(data: Bytes, key: Bytes, iv: Bytes, suite: CipherSuite)
    requires Lawful(suite)
    requires ValidKeyLength(|key|) && |iv| == IvLength
    ensures AesEncrypt(data, Some(key), iv, suite).Ok?
    ensures AesDecrypt(AesEncrypt(data, Some(key), iv, suite).value, Some(key), suite) == Ok(data)
  {
    RoundTrip(data, key, iv, suite);
  }

  /** An empty stored value panics in `unpad` rather than returning an error. */
  lemma EmptyFramePanics(key: Bytes, suite: CipherSuite)
    requires suite.decode([]) == Some([])
    ensures Decrypt([], key, suite) == Panic
  {
  }
}
