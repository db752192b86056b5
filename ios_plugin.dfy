/** The iOS plugin object: the keychain its key lives in, the key lookup,
    the encryption and decryption entry points, and the handler that
    answers method-channel calls. */
module IosPlugin {
  import opened Common
  import opened IosProbes
  import opened IosCipher

  /** The keychain's key items, in the order they were added. */
  class Keychain {
    var items: seq<KeychainItem>

    constructor (items: seq<KeychainItem>)
      ensures this.items == items
    {
      this.items := items;
    }
  }

  /** An argument value: a Swift `String` or anything else. */
  datatype ArgValue = StringArg(s: string) | OtherArg

  /** `call.arguments`: a `[String: Any]` dictionary or something else
      (nil included). */
  datatype Arguments = NotADictionary | Dictionary(entries: map<string, ArgValue>)

  datatype IosCall = IosCall(name: string, arguments: Arguments)

  /** The `data` argument when the arguments are a dictionary and its
      "data" entry is a String. */
  function DataArgument(args: Arguments): Option<string>
  {
    match args
    case NotADictionary => None
    case Dictionary(entries) =>
      if "data" in entries && entries["data"].StringArg? then Some(entries["data"].s) else None
  }

  /** The reply to "encrypt" or "decrypt" once the call has run. */
  function CryptoReply(r: Result<string, IosError>, errorCode: string): Reply<IosError>
  {
    match r
    case Success(v) => SuccessReply(Str(v))
    case Failure(e) => ErrorReply(errorCode, Thrown(e))
  }

  const DataRequired: Reply<IosError> := ErrorReply("INVALID_ARGUMENT", Text("Data is required"))

  class NativeSecurityKitPlugin {
    const primitives: IosPrimitives
    const keychain: Keychain

    constructor (primitives: IosPrimitives, keychain: Keychain)
      ensures this.primitives == primitives && this.keychain == keychain
    {
      this.primitives := primitives;
      this.keychain := keychain;
    }

    /** `getSecureEnclaveKey`: the key the lookup returns, or a new permanent
        key under the tag, which the keychain then holds. */
    method GetSecureEnclaveKey(c: KeyCreation) returns (r: Result<PrivateKey, IosError>)
      modifies keychain
      ensures match GetOrCreateKey(old(keychain.items), c)
              case Failure(e) => r == Failure(e) && keychain.items == old(keychain.items)
              case Success((k, after)) => r == Success(k) && keychain.items == after
    {
      var status := LookupStatus(keychain.items, c);
      if status == ErrSecSuccess {
        return Success(FindKey(keychain.items, KeyTag).value);
      }
      if !c.accessControlCreated {
        return Failure(StatusError(ErrSecParam));
      }
      match c.created {
        case Failure(code) =>
          return Failure(SecurityError(code));
        case Success(k) =>
          keychain.items := keychain.items + [KeychainItem(KeyTag, k)];
          return Success(k);
      }
    }

    /** `encrypt(string:)`; `ephemeral` is the randomness ECIES draws. */
    method EncryptString(s: string, c: KeyCreation, ephemeral: nat) returns (r: Result<string, IosError>)
      modifies keychain
      ensures (r, keychain.items) == Encrypt(primitives, old(keychain.items), c, s, ephemeral)
    {
      var key := GetSecureEnclaveKey(c);
      if key.Failure? {
        return Failure(key.error);
      }
      var publicKey := primitives.publicKey(key.value);
      if publicKey.None? {
        return Failure(KitError(-1, "Failed to get public key"));
      }
      var data := primitives.utf8Encode(s);
      if data.None? {
        return Failure(KitError(-2, "Failed to encode string"));
      }
      if !primitives.canEncrypt(publicKey.value) {
        return Failure(KitError(-3, "Algorithm not supported"));
      }
      var cipher := primitives.eciesEncrypt(publicKey.value, data.value, ephemeral);
      if cipher.Failure? {
        return Failure(SecurityError(cipher.error));
      }
      return Success(primitives.base64Encode(cipher.value));
    }

    /** `decrypt(string:)`. */
    method DecryptString(s: string, c: KeyCreation) returns (r: Result<string, IosError>)
      modifies keychain
      ensures (r, keychain.items) == Decrypt(primitives, old(keychain.items), c, s)
    {
      var key := GetSecureEnclaveKey(c);
      if key.Failure? {
        return Failure(key.error);
      }
      var data := primitives.base64Decode(s);
      if data.None? {
        return Failure(KitError(-4, "Invalid base64 string"));
      }
      if !primitives.canDecrypt(key.value) {
        return Failure(KitError(-5, "Algorithm not supported"));
      }
      var clear := primitives.eciesDecrypt(key.value, data.value);
      if clear.Failure? {
        return Failure(SecurityError(clear.error));
      }
      var result := primitives.utf8Decode(clear.value);
      if result.None? {
        return Failure(KitError(-6, "Failed to decode string"));
      }
      return Success(result.value);
    }

    /** `handle(_:result:)`. `d` and `fs` are the device the probes look at,
        `c` and `ephemeral` the platform's answers for the keychain and the
        cipher, used only by "encrypt" and "decrypt". */
    method Handle(call: IosCall, d: IosDevice, fs: FileSystem, c: KeyCreation, ephemeral: nat)
      returns (reply: Reply<IosError>)
      modifies keychain, fs
      ensures call.name != "encrypt" && call.name != "decrypt" ==> keychain.items == old(keychain.items)
      ensures call.name != "isDeviceRooted" && call.name != "isDeviceJailbroken" ==> fs.paths == old(fs.paths)
      ensures call.name == "getPlatformVersion" ==> reply == SuccessReply(Str("iOS " + d.systemVersion))
      ensures call.name == "isDeviceRooted" || call.name == "isDeviceJailbroken" ==>
                && reply == SuccessReply(Bool(Jailbroken(d, old(fs.paths))))
                && fs.paths == PathsAfterProbe(d, old(fs.paths))
      ensures call.name == "isRunningOnEmulator" ==> reply == SuccessReply(Bool(IsSimulator(d.target)))
      ensures call.name == "encrypt" ==>
                match DataArgument(call.arguments)
                case None => reply == DataRequired && keychain.items == old(keychain.items)
                case Some(data) =>
                  var (r, after) := Encrypt(primitives, old(keychain.items), c, data, ephemeral);
                  reply == CryptoReply(r, "ENCRYPTION_ERROR") && keychain.items == after
      ensures call.name == "decrypt" ==>
                match DataArgument(call.arguments)
                case None => reply == DataRequired && keychain.items == old(keychain.items)
                case Some(data) =>
                  var (r, after) := Decrypt(primitives, old(keychain.items), c, data);
                  reply == CryptoReply(r, "DECRYPTION_ERROR") && keychain.items == after
      ensures call.name !in Methods ==> reply == NotImplemented
    {
      match call.name
      case "getPlatformVersion" =>
        reply := SuccessReply(Str("iOS " + d.systemVersion));
      case "isDeviceRooted" =>
        var jailbroken, _ := IsJailbroken(d, fs);
        reply := SuccessReply(Bool(jailbroken));
      case "isDeviceJailbroken" =>
        var jailbroken, _ := IsJailbroken(d, fs);
        reply := SuccessReply(Bool(jailbroken));
      case "isRunningOnEmulator" =>
        reply := SuccessReply(Bool(IsSimulator(d.target)));
      case "encrypt" =>
        var data := DataArgument(call.arguments);
        if data.None? {
          return DataRequired;
        }
        var encrypted := EncryptString(data.value, c, ephemeral);
        reply := CryptoReply(encrypted, "ENCRYPTION_ERROR");
      case "decrypt" =>
        var data := DataArgument(call.arguments);
        if data.None? {
          return DataRequired;
        }
        var decrypted := DecryptString(data.value, c);
        reply := CryptoReply(decrypted, "DECRYPTION_ERROR");
      case _ =>
        reply := NotImplemented;
    }
  }

  /** The method names `handle` answers. */
  const Methods: set<string> := {
    "getPlatformVersion", "isDeviceRooted", "isDeviceJailbroken", "isRunningOnEmulator", "encrypt", "decrypt"
  }
}
