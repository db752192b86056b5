/** The Android encryption engine: an AES key kept in the Android key store
    under a fixed alias, AES/GCM/NoPadding with a 96-bit IV and a 128-bit
    tag (NIST SP 800-38D), and an envelope that is the IV followed by the
    GCM output, Base64-encoded.

    The cipher, Base64 and UTF-8 conversions are platform calls; they are
    the fields of `Primitives`, and what the proofs assume of them is
    stated by the predicates `GcmCorrect`, `GcmExpands`, `GcmRejectsShort`
    and `Base64RoundTrips`, passed as hypotheses to the lemmas that need them. */
module AndroidCipher {
  import opened Common

  /** The IV length `decryptData` expects. */
  const IvSize: nat := 12
  /** GCMParameterSpec tag length, in bits and in bytes. */
  const TagBits: nat := 128
  const TagSize: nat := TagBits / 8
  const KeyAlias: string := "NativeSecurityKitKey"

  /** A key-store handle; the raw key material is never visible. */
  datatype SecretKey = SecretKey(id: nat)

  datatype Primitives = Primitives(
    cipherAvailable: bool,                                        // Cipher.getInstance("AES/GCM/NoPadding") succeeds
    seal: (SecretKey, seq<byte>, seq<byte>) -> Option<seq<byte>>, // init and doFinal for encryption: key, IV,
                                                                  // plaintext; None when either throws
    open: (SecretKey, seq<byte>, seq<byte>) -> Option<seq<byte>>, // GCM decryption; None when the tag fails
    base64Encode: seq<byte> -> string,
    base64Decode: string -> Option<seq<byte>>,                    // None when Base64.decode throws
    utf8Encode: string -> seq<byte>,                              // String.toByteArray(UTF_8)
    utf8Decode: seq<byte> -> string)                              // String(bytes, UTF_8)

  /** Decryption under the same key and IV inverts encryption. */
  ghost predicate GcmCorrect(p: Primitives)
  {
    forall k, iv, m :: p.seal(k, iv, m).Some? ==> p.open(k, iv, p.seal(k, iv, m).value) == Some(m)
  }

  /** GCM output is as long as the plaintext plus the tag. */
  ghost predicate GcmExpands(p: Primitives)
  {
    forall k, iv, m :: p.seal(k, iv, m).Some? ==> |p.seal(k, iv, m).value| == |m| + TagSize
  }

  /** GCM output is the ciphertext plus the tag, so an input shorter than
      the tag never authenticates. */
  ghost predicate GcmRejectsShort(p: Primitives)
  {
    forall k, iv, c :: |c| < TagSize ==> p.open(k, iv, c) == None
  }

  ghost predicate Base64RoundTrips(p: Primitives)
  {
    forall b :: p.base64Decode(p.base64Encode(b)) == Some(b)
  }

  /** The exceptions `encryptData`, `decryptData` and `getSecretKey` can
      throw. */
  datatype CryptoError =
    | CipherUnavailable     // Cipher.getInstance threw
    | EncryptionFailed      // cipher.init or doFinal threw while encrypting
    | KeyStoreUnavailable   // KeyStore.getInstance / load failed
    | KeyGenerationFailed   // KeyGenerator rejected the key specification
    | InvalidBase64         // Base64.decode threw IllegalArgumentException
    | InvalidDataLength     // the IllegalArgumentException thrown by decryptData
    | AuthenticationFailed  // AEADBadTagException from doFinal

  /** The platform's answers for one `getSecretKey` call: whether the key
      store opens, and the key the generator would produce. */
  datatype Provisioning = Provisioning(storeLoads: bool, generated: Option<SecretKey>)

  // --- Envelope framing ---

  /** The envelope bytes: IV, then cipher output. */
  function Frame(iv: seq<byte>, encrypted: seq<byte>): seq<byte>
  {
    iv + encrypted
  }

  /** Splitting of decoded envelope bytes, with the length guard. */
  function Unframe(decoded: seq<byte>): Result<(seq<byte>, seq<byte>), CryptoError>
  {
    if |decoded| < IvSize then Failure(InvalidDataLength)
    else Success((decoded[..IvSize], decoded[IvSize..]))
  }

  /** Splitting a frame built around a 12-byte IV gives back that IV and the
      cipher output. */
  lemma UnframeFrame(iv: seq<byte>, encrypted: seq<byte>)
    requires |iv| == IvSize
    ensures Unframe(Frame(iv, encrypted)) == Success((iv, encrypted))
  {
    var f := Frame(iv, encrypted);
    assert f[..IvSize] == iv;
    assert f[IvSize..] == encrypted;
  }

  /** Splitting loses and reorders nothing: rejoining the parts gives the
      input back, and the IV part is 12 bytes. */
  lemma FrameUnframe(decoded: seq<byte>)
    requires Unframe(decoded).Success?
    ensures |Unframe(decoded).value.0| == IvSize
    ensures Frame(Unframe(decoded).value.0, Unframe(decoded).value.1) == decoded
  {
    assert decoded[..IvSize] + decoded[IvSize..] == decoded;
  }

  /** `System.arraycopy(src, srcPos, dst, dstPos, length)` for distinct
      arrays: the `length` elements from `srcPos` land at `dstPos`, and the
      rest of `dst` keeps its contents. */
  method ArrayCopy(src: array<byte>, srcPos: nat, dst: array<byte>, dstPos: nat, length: nat)
    requires src != dst
    requires srcPos + length <= src.Length && dstPos + length <= dst.Length
    modifies dst
    ensures dst[..] == old(dst[..dstPos]) + src[srcPos..srcPos + length] + old(dst[dstPos + length..])
  {
    var i := 0;
    while i < length
      invariant 0 <= i <= length
      invariant forall j :: dstPos <= j < dstPos + i ==> dst[j] == src[srcPos + (j - dstPos)]
      invariant forall j :: 0 <= j < dst.Length && !(dstPos <= j < dstPos + i) ==> dst[j] == old(dst[j])
    {
      dst[dstPos + i] := src[srcPos + i];
      i := i + 1;
    }
    assert dst[..] == old(dst[..dstPos]) + src[srcPos..srcPos + length] + old(dst[dstPos + length..]) by {
      forall j | 0 <= j < dst.Length
        ensures dst[..][j] == (old(dst[..dstPos]) + src[srcPos..srcPos + length] + old(dst[dstPos + length..]))[j]
      {
        if j < dstPos {
          assert dst[j] == old(dst[j]);
        } else if j < dstPos + length {
          assert dst[j] == src[srcPos + (j - dstPos)];
        } else {
          assert dst[j] == old(dst[j]);
        }
      }
    }
  }

  /** A fresh array holding `s`. */
  method ToArray(s: seq<byte>) returns (a: array<byte>)
    ensures fresh(a) && a[..] == s
  {
    a := new byte[|s|](i requires 0 <= i < |s| => s[i]);
  }

  /** The envelope assembly of `encryptData`: a buffer of `iv.size +
      encryption.size` bytes, the IV copied to its start and the cipher
      output after it. */
  method Combine(iv: seq<byte>, encryption: seq<byte>) returns (combined: seq<byte>)
    ensures |combined| == |iv| + |encryption|
    ensures combined[..|iv|] == iv
    ensures combined[|iv|..] == encryption
    ensures combined == Frame(iv, encryption)
  {
    var ivArray := ToArray(iv);
    var encArray := ToArray(encryption);
    var buffer := new byte[|iv| + |encryption|];
    ArrayCopy(ivArray, 0, buffer, 0, |iv|);
    ArrayCopy(encArray, 0, buffer, |iv|, |encryption|);
    combined := buffer[..];
  }

  /** The envelope split of `decryptData`: the length guard, then the
      first 12 bytes copied out as the IV and the remaining `size - 12` as
      the encrypted content. */
  method Split(decoded: seq<byte>) returns (r: Result<(seq<byte>, seq<byte>), CryptoError>)
    ensures r.Failure? <==> |decoded| < IvSize
    ensures r.Failure? ==> r.error == InvalidDataLength
    ensures r.Success? ==> |r.value.0| == IvSize && r.value.0 + r.value.1 == decoded
    ensures r == Unframe(decoded)
  {
    if |decoded| < IvSize {
      return Failure(InvalidDataLength);
    }
    var source := ToArray(decoded);
    var iv := new byte[IvSize];
    ArrayCopy(source, 0, iv, 0, IvSize);
    var content := new byte[|decoded| - IvSize];
    ArrayCopy(source, IvSize, content, 0, content.Length);
    assert iv[..] + content[..] == decoded[..IvSize] + decoded[IvSize..];
    r := Success((iv[..], content[..]));
  }

  // --- Key store ---

  /** `getSecretKey` on the key-store contents: the stored key when the
      alias exists, otherwise a newly generated key, which the store keeps
      under the alias. On success the result carries the key and the new
      contents; on failure the contents are unchanged. */
  function GetOrCreateKey(store: map<string, SecretKey>, prov: Provisioning)
    : Result<(SecretKey, map<string, SecretKey>), CryptoError>
  {
    if !prov.storeLoads then Failure(KeyStoreUnavailable)
    else if KeyAlias in store then Success((store[KeyAlias], store))
    else match prov.generated
      case None => Failure(KeyGenerationFailed)
      case Some(k) => Success((k, store[KeyAlias := k]))
  }

  /** An existing key is returned unchanged and the store is left alone; a
      key is generated only when the alias is absent, and only that alias
      changes. */
  lemma GetOrCreateKeySpec(store: map<string, SecretKey>, prov: Provisioning)
    ensures var r := GetOrCreateKey(store, prov);
            && (r.Success? <==> prov.storeLoads && (KeyAlias in store || prov.generated.Some?))
            && (r.Success? && KeyAlias in store ==> r.value == (store[KeyAlias], store))
            && (r.Success? && KeyAlias !in store ==>
                  r.value.0 == prov.generated.value
                  && r.value.1.Keys == store.Keys + {KeyAlias}
                  && r.value.1[KeyAlias] == r.value.0
                  && forall a :: a in store ==> r.value.1[a] == store[a])
  {
  }

  /** Two calls in sequence return the same key, and the second changes
      nothing, whatever the generator would have produced. */
  lemma GetOrCreateKeyIdempotent(store: map<string, SecretKey>, first: Provisioning, second: Provisioning)
    requires GetOrCreateKey(store, first).Success?
    requires second.storeLoads
    ensures var (k, after) := GetOrCreateKey(store, first).value;
            GetOrCreateKey(after, second) == Success((k, after))
  {
  }

  // --- Encryption and decryption ---

  /** `encryptData` on values: the key-store contents afterwards, and either
      the Base64 text of IV ‖ GCM(key, IV, UTF-8(data)) or the exception.
      The cipher is obtained before the key, so a missing cipher leaves the
      store untouched; a cipher that throws later leaves the key that was
      provisioned for it. */
  function Encrypt(p: Primitives, store: map<string, SecretKey>, data: string, iv: seq<byte>, prov: Provisioning)
    : (Result<string, CryptoError>, map<string, SecretKey>)
  {
    if !p.cipherAvailable then (Failure(CipherUnavailable), store)
    else match GetOrCreateKey(store, prov)
      case Failure(e) => (Failure(e), store)
      case Success((k, after)) =>
        match p.seal(k, iv, p.utf8Encode(data))
        case None => (Failure(EncryptionFailed), after)
        case Some(encryption) => (Success(p.base64Encode(Frame(iv, encryption))), after)
  }

  /** `decryptData` on values. The length guard comes before any key-store
      work; the cipher is obtained and then the key looked up (or
      generated) only for a frame that passes it. */
  function Decrypt(p: Primitives, store: map<string, SecretKey>, text: string, prov: Provisioning)
    : (Result<string, CryptoError>, map<string, SecretKey>)
  {
    match p.base64Decode(text)
    case None => (Failure(InvalidBase64), store)
    case Some(decoded) =>
      match Unframe(decoded)
      case Failure(e) => (Failure(e), store)
      case Success((iv, content)) =>
        if !p.cipherAvailable then (Failure(CipherUnavailable), store)
        else match GetOrCreateKey(store, prov)
          case Failure(e) => (Failure(e), store)
          case Success((k, after)) =>
            match p.open(k, iv, content)
            case None => (Failure(AuthenticationFailed), after)
            case Some(plain) => (Success(p.utf8Decode(plain)), after)
  }

  /** The envelope of a successful encryption is IV ‖ cipher output; when
      GCM appends a 16-byte tag and the IV has the 12 bytes GCM chooses,
      its decoded length is 28 bytes more than the UTF-8 plaintext, so it
      depends on the message length only. */
  lemma EncryptEnvelope(p: Primitives, store: map<string, SecretKey>, data: string, iv: seq<byte>, prov: Provisioning)
    requires Base64RoundTrips(p)
    requires Encrypt(p, store, data, iv, prov).0.Success?
    ensures var (k, _) := GetOrCreateKey(store, prov).value;
            var decoded := p.base64Decode(Encrypt(p, store, data, iv, prov).0.value);
            && decoded.Some?
            && decoded.value[..|iv|] == iv
            && Some(decoded.value[|iv|..]) == p.seal(k, iv, p.utf8Encode(data))
            && (GcmExpands(p) && |iv| == IvSize ==> |decoded.value| == IvSize + |p.utf8Encode(data)| + TagSize)
  {
    var (k, _) := GetOrCreateKey(store, prov).value;
    var framed := Frame(iv, p.seal(k, iv, p.utf8Encode(data)).value);
    assert p.base64Decode(p.base64Encode(framed)) == Some(framed);
  }

  /** How encryption fails: without a cipher, before the key store is
      touched; when provisioning fails, with the store unchanged; and when
      the cipher throws, after the key was provisioned. */
  lemma EncryptFailures(p: Primitives, store: map<string, SecretKey>, data: string, iv: seq<byte>, prov: Provisioning)
    ensures !p.cipherAvailable ==> Encrypt(p, store, data, iv, prov) == (Failure(CipherUnavailable), store)
    ensures p.cipherAvailable && GetOrCreateKey(store, prov).Failure? ==>
              Encrypt(p, store, data, iv, prov) == (Failure(GetOrCreateKey(store, prov).error), store)
    ensures p.cipherAvailable && GetOrCreateKey(store, prov).Success? ==>
              var (k, after) := GetOrCreateKey(store, prov).value;
              && Encrypt(p, store, data, iv, prov).1 == after
              && (Encrypt(p, store, data, iv, prov).0 == Failure(EncryptionFailed)
                  <==> p.seal(k, iv, p.utf8Encode(data)).None?)
  {
  }

  /** Round trip: with a correct GCM and Base64, a message whose UTF-8 form
      decodes back to it, and the 12-byte IV the cipher chose, decrypting
      the envelope with the key store that encryption left behind gives the
      message back and leaves the store as it is. */
  lemma {:induction false} DecryptEncrypt(p: Primitives, store: map<string, SecretKey>, data: string,
                                          iv: seq<byte>, first: Provisioning, second: Provisioning)
    requires GcmCorrect(p) && Base64RoundTrips(p)
    requires p.utf8Decode(p.utf8Encode(data)) == data
    requires |iv| == IvSize
    requires second.storeLoads
    requires Encrypt(p, store, data, iv, first).0.Success?
    ensures var (envelope, after) := Encrypt(p, store, data, iv, first);
            Decrypt(p, after, envelope.value, second) == (Success(data), after)
  {
    var (k, after) := GetOrCreateKey(store, first).value;
    var sealed := p.seal(k, iv, p.utf8Encode(data)).value;
    var framed := Frame(iv, sealed);
    assert p.base64Decode(p.base64Encode(framed)) == Some(framed);
    UnframeFrame(iv, sealed);
    GetOrCreateKeyIdempotent(store, first, second);
    assert p.open(k, iv, sealed) == Some(p.utf8Encode(data));
  }

  /** A decoded envelope shorter than the IV fails with "Invalid data
      length", and the key store is not touched. */
  lemma ShortEnvelope(p: Primitives, store: map<string, SecretKey>, text: string, prov: Provisioning)
    requires p.base64Decode(text).Some? && |p.base64Decode(text).value| < IvSize
    ensures Decrypt(p, store, text, prov) == (Failure(InvalidDataLength), store)
  {
  }

  /** Envelopes of 12 to 27 bytes pass the length guard, reach the key store
      and the cipher, and are rejected only there, as an authentication
      failure. */
  lemma EnvelopeWithoutTag(p: Primitives, store: map<string, SecretKey>, text: string, prov: Provisioning)
    requires GcmRejectsShort(p)
    requires p.base64Decode(text).Some?
    requires IvSize <= |p.base64Decode(text).value| < IvSize + TagSize
    requires p.cipherAvailable && GetOrCreateKey(store, prov).Success?
    ensures Unframe(p.base64Decode(text).value).Success?
    ensures Decrypt(p, store, text, prov) == (Failure(AuthenticationFailed), GetOrCreateKey(store, prov).value.1)
  {
    var decoded := p.base64Decode(text).value;
    var (k, _) := GetOrCreateKey(store, prov).value;
    assert |decoded[IvSize..]| < TagSize;
    assert p.open(k, decoded[..IvSize], decoded[IvSize..]) == None;
  }
}
