/** The Android plugin object: the key store it provisions its key in, the
    encryption and decryption entry points, and the dispatcher that answers
    method-channel calls. */
module AndroidPlugin {
  import opened Common
  import opened AndroidProbes
  import opened AndroidCipher

  /** The device's AndroidKeyStore: keys by alias. */
  class AndroidKeyStore {
    var entries: map<string, SecretKey>

    constructor (entries: map<string, SecretKey>)
      ensures this.entries == entries
    {
      this.entries := entries;
    }
  }

  /** A method-channel call: the method name and the `data` argument, which
      is None when it is missing or null. */
  datatype MethodCall = MethodCall(name: string, data: Option<string>)

  /** A nullable string sent back as a reply value. */
  function NullableString(s: Option<string>): Value
  {
    match s
    case None => Null
    case Some(v) => Str(v)
  }

  /** The reply to "encrypt" or "decrypt" once the call has run: the result
      on success, otherwise the error code with the exception caught. */
  function CryptoReply(r: Result<string, CryptoError>, errorCode: string): Reply<CryptoError>
  {
    match r
    case Success(v) => SuccessReply(Str(v))
    case Failure(e) => ErrorReply(errorCode, Thrown(e))
  }

  const InvalidArgument: Reply<CryptoError> := ErrorReply("INVALID_ARGUMENT", Text("Data cannot be null"))

  class NativeSecurityKitPlugin {
    const primitives: Primitives
    const keyStore: AndroidKeyStore

    constructor (primitives: Primitives, keyStore: AndroidKeyStore)
      ensures this.primitives == primitives && this.keyStore == keyStore
    {
      this.primitives := primitives;
      this.keyStore := keyStore;
    }

    /** `getSecretKey`: returns the key stored under the alias, or generates
        one, which the key store keeps under the alias. */
    method GetSecretKey(prov: Provisioning) returns (r: Result<SecretKey, CryptoError>)
      modifies keyStore
      ensures match GetOrCreateKey(old(keyStore.entries), prov)
              case Failure(e) => r == Failure(e) && keyStore.entries == old(keyStore.entries)
              case Success((k, after)) => r == Success(k) && keyStore.entries == after
    {
      if !prov.storeLoads {
        return Failure(KeyStoreUnavailable);
      }
      if KeyAlias !in keyStore.entries {
        if prov.generated.None? {
          return Failure(KeyGenerationFailed);
        }
        var key := prov.generated.value;
        keyStore.entries := keyStore.entries[KeyAlias := key];
        return Success(key);
      }
      return Success(keyStore.entries[KeyAlias]);
    }

    /** `encryptData`; `iv` is the IV the cipher chose when it was
        initialised. */
    method EncryptData(data: string, iv: seq<byte>, prov: Provisioning) returns (r: Result<string, CryptoError>)
      modifies keyStore
      ensures (r, keyStore.entries) == Encrypt(primitives, old(keyStore.entries), data, iv, prov)
    {
      if !primitives.cipherAvailable {
        return Failure(CipherUnavailable);
      }
      var key := GetSecretKey(prov);
      if key.Failure? {
        return Failure(key.error);
      }
      var encryption := primitives.seal(key.value, iv, primitives.utf8Encode(data));
      if encryption.None? {
        return Failure(EncryptionFailed);
      }
      var combined := Combine(iv, encryption.value);
      return Success(primitives.base64Encode(combined));
    }

    /** `decryptData`. */
    method DecryptData(encryptedData: string, prov: Provisioning) returns (r: Result<string, CryptoError>)
      modifies keyStore
      ensures (r, keyStore.entries) == Decrypt(primitives, old(keyStore.entries), encryptedData, prov)
    {
      var decoded := primitives.base64Decode(encryptedData);
      if decoded.None? {
        return Failure(InvalidBase64);
      }
      var parts := Split(decoded.value);
      if parts.Failure? {
        return Failure(parts.error);
      }
      var (iv, content) := parts.value;
      if !primitives.cipherAvailable {
        return Failure(CipherUnavailable);
      }
      var key := GetSecretKey(prov);
      if key.Failure? {
        return Failure(key.error);
      }
      var original := primitives.open(key.value, iv, content);
      if original.None? {
        return Failure(AuthenticationFailed);
      }
      return Success(primitives.utf8Decode(original.value));
    }

    /** `onMethodCall`. `iv` and `prov` are the platform's answers for the
        cipher and the key store, used only by "encrypt" and "decrypt". */
    method OnMethodCall(call: MethodCall, device: Device, iv: seq<byte>, prov: Provisioning)
      returns (reply: Reply<CryptoError>)
      modifies keyStore
      ensures call.name != "encrypt" && call.name != "decrypt" ==> keyStore.entries == old(keyStore.entries)
      ensures call.name == "getPlatformVersion" ==> reply == SuccessReply(Str("Android " + device.release))
      ensures call.name == "isDeviceRooted" || call.name == "isDeviceJailbroken" ==>
                reply == SuccessReply(Bool(Rooted(device)))
      ensures call.name == "isRunningOnEmulator" ==> reply == SuccessReply(Bool(IsEmulator(device)))
      ensures call.name == "encrypt" ==>
                if call.data.None? then
                  reply == InvalidArgument && keyStore.entries == old(keyStore.entries)
                else
                  var (r, after) := Encrypt(primitives, old(keyStore.entries), call.data.value, iv, prov);
                  reply == CryptoReply(r, "ENCRYPTION_ERROR") && keyStore.entries == after
      ensures call.name == "decrypt" ==>
                if call.data.None? then
                  reply == InvalidArgument && keyStore.entries == old(keyStore.entries)
                else
                  var (r, after) := Decrypt(primitives, old(keyStore.entries), call.data.value, prov);
                  reply == CryptoReply(r, "DECRYPTION_ERROR") && keyStore.entries == after
      ensures call.name == "isDebuggerAttached" ==> reply == SuccessReply(Bool(IsDebuggerAttached(device)))
      ensures call.name == "getInstallerSource" ==>
                reply == SuccessReply(NullableString(InstallerPackageName(device.context)))
      ensures call.name == "toggleScreenSecurity" ==> reply == SuccessReply(Null)
      ensures call.name == "isUsbDebuggingEnabled" ==>
                reply == SuccessReply(Bool(IsUsbDebuggingEnabled(device.context)))
      ensures call.name == "isVpnActive" ==> reply == SuccessReply(Bool(VpnActive(device.sdkInt, device.context)))
      ensures call.name == "isProxyDetected" ==> reply == SuccessReply(Bool(IsProxyDetected(device.httpProxyHost)))
      ensures call.name == "isExternalDisplayConnected" ==>
                reply == SuccessReply(Bool(ExternalDisplay(device.context)))
      ensures call.name == "getAppSignatureHash" ==>
                reply == SuccessReply(NullableString(if device.context.None? then None
                                                     else device.context.value.signatureHash))
      ensures call.name !in Methods ==> reply == NotImplemented
    {
      match call.name
      case "getPlatformVersion" =>
        reply := SuccessReply(Str("Android " + device.release));
      case "isDeviceRooted" =>
        var rooted, _ := IsRooted(device);
        reply := SuccessReply(Bool(rooted));
      case "isDeviceJailbroken" =>
        var rooted, _ := IsRooted(device);
        reply := SuccessReply(Bool(rooted));
      case "isRunningOnEmulator" =>
        reply := SuccessReply(Bool(IsEmulator(device)));
      case "encrypt" =>
        if call.data.None? {
          return InvalidArgument;
        }
        var encrypted := EncryptData(call.data.value, iv, prov);
        reply := CryptoReply(encrypted, "ENCRYPTION_ERROR");
      case "decrypt" =>
        if call.data.None? {
          return InvalidArgument;
        }
        var decrypted := DecryptData(call.data.value, prov);
        reply := CryptoReply(decrypted, "DECRYPTION_ERROR");
      case "isDebuggerAttached" =>
        reply := SuccessReply(Bool(device.debuggerConnected || device.waitingForDebugger));
      case "getInstallerSource" =>
        reply := SuccessReply(NullableString(InstallerPackageName(device.context)));
      case "toggleScreenSecurity" =>
        reply := SuccessReply(Null);
      case "isUsbDebuggingEnabled" =>
        reply := SuccessReply(Bool(IsUsbDebuggingEnabled(device.context)));
      case "isVpnActive" =>
        var vpn := IsVpnActive(device.sdkInt, device.context);
        reply := SuccessReply(Bool(vpn));
      case "isProxyDetected" =>
        reply := SuccessReply(Bool(IsProxyDetected(device.httpProxyHost)));
      case "isExternalDisplayConnected" =>
        var external := IsExternalDisplayConnected(device.context);
        reply := SuccessReply(Bool(external));
      case "getAppSignatureHash" =>
        var hash := if device.context.None? then None else device.context.value.signatureHash;
        reply := SuccessReply(NullableString(hash));
      case _ =>
        reply := NotImplemented;
    }
  }

  /** The method names `onMethodCall` answers. */
  const Methods: set<string> := {
    "getPlatformVersion", "isDeviceRooted", "isDeviceJailbroken", "isRunningOnEmulator",
    "encrypt", "decrypt", "isDebuggerAttached", "getInstallerSource", "toggleScreenSecurity",
    "isUsbDebuggingEnabled", "isVpnActive", "isProxyDetected", "isExternalDisplayConnected",
    "getAppSignatureHash"
  }
}
