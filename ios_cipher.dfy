/** The iOS encryption engine: an elliptic-curve key pair kept in the
    keychain (in the Secure Enclave on a device) under a fixed application
    tag, ECIES encryption with the public key
    (eciesEncryptionCofactorVariableIVX963SHA256AESGCM), decryption with the
    private key, and Base64 text on the outside.

    The Security framework calls, Base64 and UTF-8 are the fields of
    `IosPrimitives`; `EciesCorrect` and `Base64RoundTrips` state what the
    round-trip proof assumes of them. */
module IosCipher {
  import opened Common

  const KeyTag: string := "com.example.native_security_kit.key.v1"
  const ErrSecSuccess: int := 0
  const ErrSecItemNotFound: int := -25300
  const ErrSecParam: int := -50

  datatype PrivateKey = PrivateKey(id: nat)
  datatype PublicKey = PublicKey(id: nat)

  /** A key item in the keychain: its application tag and the key. */
  datatype KeychainItem = KeychainItem(tag: string, key: PrivateKey)

  /** An OSStatus other than errSecSuccess. */
  type FailureStatus = s: int | s != 0 witness ErrSecItemNotFound

  /** The platform's answers for one `getSecureEnclaveKey` call. */
  datatype KeyCreation = KeyCreation(
    lookupFault: Option<FailureStatus>, // SecItemCopyMatching fails with this status whatever the keychain holds
    accessControlCreated: bool,         // SecAccessControlCreateWithFlags returned a value
    created: Result<PrivateKey, int>)   // SecKeyCreateRandomKey: the new key, or the code of its CFError

  datatype IosPrimitives = IosPrimitives(
    publicKey: PrivateKey -> Option<PublicKey>,                  // SecKeyCopyPublicKey
    canEncrypt: PublicKey -> bool,                               // SecKeyIsAlgorithmSupported(.encrypt, ECIES)
    canDecrypt: PrivateKey -> bool,                              // SecKeyIsAlgorithmSupported(.decrypt, ECIES)
    eciesEncrypt: (PublicKey, seq<byte>, nat) -> Result<seq<byte>, int>, // the nat stands for the ephemeral randomness
    eciesDecrypt: (PrivateKey, seq<byte>) -> Result<seq<byte>, int>,
    base64Encode: seq<byte> -> string,                           // Data.base64EncodedString()
    base64Decode: string -> Option<seq<byte>>,                   // Data(base64Encoded:)
    utf8Encode: string -> Option<seq<byte>>,                     // String.data(using: .utf8)
    utf8Decode: seq<byte> -> Option<string>)                     // String(data:encoding: .utf8)

  /** Decrypting with a private key what was encrypted with its public key
      gives the plaintext back. */
  ghost predicate EciesCorrect(p: IosPrimitives)
  {
    forall k, m, e :: p.publicKey(k).Some? && p.eciesEncrypt(p.publicKey(k).value, m, e).Success? ==>
      p.eciesDecrypt(k, p.eciesEncrypt(p.publicKey(k).value, m, e).value) == Success(m)
  }

  ghost predicate Base64RoundTrips(p: IosPrimitives)
  {
    forall b :: p.base64Decode(p.base64Encode(b)) == Some(b)
  }

  /** The errors `encrypt`, `decrypt` and `getSecureEnclaveKey` throw. */
  datatype IosError =
    | KitError(code: int, description: string)  // NSError in the "NativeSecurityKit" domain
    | StatusError(status: int)                   // NSError in NSOSStatusErrorDomain
    | SecurityError(code: int)                   // the CFError a Security call reported

  // --- Keychain ---

  /** The key of the first item with the tag: what SecItemCopyMatching with
      its default match limit of one returns. */
  function FindKey(items: seq<KeychainItem>, tag: string): Option<PrivateKey>
  {
    if |items| == 0 then None
    else if items[0].tag == tag then Some(items[0].key)
    else FindKey(items[1..], tag)
  }

  /** Adding an item at the end does not change which key is found, unless
      none was found before. */
  lemma {:induction false} FindKeyAppend(items: seq<KeychainItem>, item: KeychainItem, tag: string)
    ensures FindKey(items + [item], tag) ==
              if FindKey(items, tag).Some? then FindKey(items, tag)
              else if item.tag == tag then Some(item.key)
              else None
  {
    if |items| == 0 {
      assert items + [item] == [item];
    } else {
      assert (items + [item])[1..] == items[1..] + [item];
      FindKeyAppend(items[1..], item, tag);
    }
  }

  /** The status SecItemCopyMatching reports for the key query. */
  function LookupStatus(items: seq<KeychainItem>, c: KeyCreation): int
  {
    match c.lookupFault
    case Some(status) => status
    case None => if FindKey(items, KeyTag).Some? then ErrSecSuccess else ErrSecItemNotFound
  }

  /** `getSecureEnclaveKey` on the keychain contents: the key found when the
      lookup succeeds; otherwise a new permanent key under the tag, added to
      the keychain. On failure the keychain is unchanged. */
  function GetOrCreateKey(items: seq<KeychainItem>, c: KeyCreation)
    : Result<(PrivateKey, seq<KeychainItem>), IosError>
  {
    if LookupStatus(items, c) == ErrSecSuccess then Success((FindKey(items, KeyTag).value, items))
    else if !c.accessControlCreated then Failure(StatusError(ErrSecParam))
    else match c.created
      case Failure(code) => Failure(SecurityError(code))
      case Success(k) => Success((k, items + [KeychainItem(KeyTag, k)]))
  }

  /** Once a call has returned a key, a later call whose lookup is not
      disturbed finds that same key and creates nothing, provided the first
      call did not create a second key beside an existing one (see
      `LookupFaultCreatesSecondKey`). */
  lemma GetOrCreateKeyIdempotent(items: seq<KeychainItem>, first: KeyCreation, second: KeyCreation)
    requires GetOrCreateKey(items, first).Success?
    requires first.lookupFault.None? || FindKey(items, KeyTag).None?
    requires second.lookupFault.None?
    ensures var (k, after) := GetOrCreateKey(items, first).value;
            GetOrCreateKey(after, second) == Success((k, after))
  {
    var (k, after) := GetOrCreateKey(items, first).value;
    if after != items {
      FindKeyAppend(items, KeychainItem(KeyTag, k), KeyTag);
    }
  }

  /** The lookup is trusted only when it reports success: when it fails for
      any other reason while a key exists, a second key is created under the
      same tag. Later undisturbed lookups still find the first key, so the
      key this call returns is not the one later calls use. */
  lemma LookupFaultCreatesSecondKey(items: seq<KeychainItem>, c: KeyCreation)
    requires FindKey(items, KeyTag).Some?
    requires c.lookupFault.Some? && c.accessControlCreated && c.created.Success?
    ensures var (k, after) := GetOrCreateKey(items, c).value;
            && k == c.created.value
            && after == items + [KeychainItem(KeyTag, k)]
            && FindKey(after, KeyTag) == FindKey(items, KeyTag)
  {
    FindKeyAppend(items, KeychainItem(KeyTag, c.created.value), KeyTag);
  }

  // --- Encryption and decryption ---

  /** `encrypt(string:)` on values; `ephemeral` stands for the randomness of
      the ECIES encryption. */
  function Encrypt(p: IosPrimitives, items: seq<KeychainItem>, c: KeyCreation, s: string, ephemeral: nat)
    : (Result<string, IosError>, seq<KeychainItem>)
  {
    match GetOrCreateKey(items, c)
    case Failure(e) => (Failure(e), items)
    case Success((k, after)) =>
      match p.publicKey(k)
      case None => (Failure(KitError(-1, "Failed to get public key")), after)
      case Some(pub) =>
        match p.utf8Encode(s)
        case None => (Failure(KitError(-2, "Failed to encode string")), after)
        case Some(data) =>
          if !p.canEncrypt(pub) then (Failure(KitError(-3, "Algorithm not supported")), after)
          else match p.eciesEncrypt(pub, data, ephemeral)
            case Failure(code) => (Failure(SecurityError(code)), after)
            case Success(cipher) => (Success(p.base64Encode(cipher)), after)
  }

  /** `decrypt(string:)` on values. The key is obtained (and possibly
      created) before the text is decoded. */
  function Decrypt(p: IosPrimitives, items: seq<KeychainItem>, c: KeyCreation, s: string)
    : (Result<string, IosError>, seq<KeychainItem>)
  {
    match GetOrCreateKey(items, c)
    case Failure(e) => (Failure(e), items)
    case Success((k, after)) =>
      match p.base64Decode(s)
      case None => (Failure(KitError(-4, "Invalid base64 string")), after)
      case Some(data) =>
        if !p.canDecrypt(k) then (Failure(KitError(-5, "Algorithm not supported")), after)
        else match p.eciesDecrypt(k, data)
          case Failure(code) => (Failure(SecurityError(code)), after)
          case Success(clear) =>
            match p.utf8Decode(clear)
            case None => (Failure(KitError(-6, "Failed to decode string")), after)
            case Some(result) => (Success(result), after)
  }

  /** A successful `encrypt` returns the Base64 text of the ECIES output for
      the UTF-8 bytes of the string, under the public key of the key it
      obtained; failures past the key lookup leave the keychain as the
      lookup left it. */
  lemma EncryptEnvelope(p: IosPrimitives, items: seq<KeychainItem>, c: KeyCreation, s: string, ephemeral: nat)
    requires Base64RoundTrips(p)
    requires GetOrCreateKey(items, c).Success?
    ensures var (k, after) := GetOrCreateKey(items, c).value;
            var (r, itemsAfter) := Encrypt(p, items, c, s, ephemeral);
            && itemsAfter == after
            && (r.Success? <==> p.publicKey(k).Some? && p.utf8Encode(s).Some? && p.canEncrypt(p.publicKey(k).value)
                                && p.eciesEncrypt(p.publicKey(k).value, p.utf8Encode(s).value, ephemeral).Success?)
            && (r.Success? ==>
                  p.base64Decode(r.value)
                  == Some(p.eciesEncrypt(p.publicKey(k).value, p.utf8Encode(s).value, ephemeral).value))
  {
    var (k, after) := GetOrCreateKey(items, c).value;
    var r := Encrypt(p, items, c, s, ephemeral).0;
    if r.Success? {
      var cipher := p.eciesEncrypt(p.publicKey(k).value, p.utf8Encode(s).value, ephemeral).value;
      assert p.base64Decode(p.base64Encode(cipher)) == Some(cipher);
    }
  }

  /** Round trip: with a correct ECIES and Base64, a string whose UTF-8 form
      decodes back to it, and a private key that supports decryption,
      decrypting what `encrypt` returned, with the keychain it left behind
      and an undisturbed lookup, gives the string back and changes nothing. */
  lemma DecryptEncrypt(p: IosPrimitives, items: seq<KeychainItem>, first: KeyCreation, second: KeyCreation,
                       s: string, ephemeral: nat)
    requires EciesCorrect(p) && Base64RoundTrips(p)
    requires p.utf8Encode(s).Some? && p.utf8Decode(p.utf8Encode(s).value) == Some(s)
    requires first.lookupFault.None? || FindKey(items, KeyTag).None?
    requires second.lookupFault.None?
    requires Encrypt(p, items, first, s, ephemeral).0.Success?
    requires p.canDecrypt(GetOrCreateKey(items, first).value.0)
    ensures var (envelope, after) := Encrypt(p, items, first, s, ephemeral);
            Decrypt(p, after, second, envelope.value) == (Success(s), after)
  {
    var (k, after) := GetOrCreateKey(items, first).value;
    GetOrCreateKeyIdempotent(items, first, second);
    var pub := p.publicKey(k).value;
    var cipher := p.eciesEncrypt(pub, p.utf8Encode(s).value, ephemeral).value;
    assert p.base64Decode(p.base64Encode(cipher)) == Some(cipher);
    assert p.eciesDecrypt(k, cipher) == Success(p.utf8Encode(s).value);
  }

  /** Text that is not Base64 fails with -4 once the key is obtained,
      before any decryption: the outcome does not depend on the decryption
      primitives at all. */
  lemma InvalidBase64BeforeDecryption(p: IosPrimitives, items: seq<KeychainItem>, c: KeyCreation, s: string,
                                      canDecrypt: PrivateKey -> bool,
                                      eciesDecrypt: (PrivateKey, seq<byte>) -> Result<seq<byte>, int>,
                                      utf8Decode: seq<byte> -> Option<string>)
    requires GetOrCreateKey(items, c).Success?
    requires p.base64Decode(s).None?
    ensures Decrypt(p, items, c, s) == (Failure(KitError(-4, "Invalid base64 string")), GetOrCreateKey(items, c).value.1)
    ensures Decrypt(p, items, c, s)
            == Decrypt(p.(canDecrypt := canDecrypt, eciesDecrypt := eciesDecrypt, utf8Decode := utf8Decode), items, c, s)
  {
  }

  /** Decrypting with no key in the keychain creates one, even when the text
      is then rejected. */
  lemma DecryptCreatesKey(p: IosPrimitives, items: seq<KeychainItem>, c: KeyCreation, s: string)
    requires FindKey(items, KeyTag).None? && c.lookupFault.None?
    requires c.accessControlCreated && c.created.Success?
    ensures Decrypt(p, items, c, s).1 == items + [KeychainItem(KeyTag, c.created.value)]
  {
  }
}
