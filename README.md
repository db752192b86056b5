# native_security_kit in Dafny

A model of the native side of the `native_security_kit` Flutter plugin, with
proofs about it. There are two platform implementations, each called through
the `native_security_kit` method channel.

- **Android** (`NativeSecurityKitPlugin.kt`). It has:
  - root detection: the `test-keys` build tag, ten `su` paths, and `which su`;
  - emulator detection: QEMU system properties and ten markers searched for in the lowercased build strings;
  - probes for a proxy, VPN transport, an external display, USB debugging, an attached debugger and the installer package;
  - AES/GCM encryption under a key kept in the AndroidKeyStore under the alias `NativeSecurityKitKey`. The envelope is Base64 of IV ‖ ciphertext, where the IV is 12 bytes and the ciphertext ends in a 128-bit tag;
  - the `onMethodCall` dispatcher.
- **iOS** (`NativeSecurityKitPlugin.swift`). It has:
  - jailbreak detection: seven known paths, a write to `/private/jailbreak.txt` followed by its removal, and the `cydia://` URL scheme;
  - the simulator check, fixed at compile time;
  - ECIES encryption (cofactor, X9.63 SHA-256, AES-GCM) under a Secure Enclave key kept in the keychain under the tag `com.example.native_security_kit.key.v1`. The key is created when the lookup does not succeed;
  - the `handle` dispatcher.

Modules, one file each:

| module | file | contents |
|---|---|---|
| `Common` | common.dfy | bytes, `Option`, `Result`, `Probe` (a platform call that may throw), replies on the channel, substring search (`Contains`), lowercasing |
| `AndroidProbes` | android_probes.dfy | the Android device as a value, and the root, emulator, network and display probes |
| `AndroidCipher` | android_cipher.dfy | envelope framing, the `System.arraycopy` steps, key provisioning, and encryption and decryption as functions over the key-store contents |
| `AndroidPlugin` | android_plugin.dfy | the key store and the plugin as classes, `getSecretKey`, `encryptData`, `decryptData`, `onMethodCall` |
| `IosProbes` | ios_probes.dfy | the filesystem as a class, and jailbreak and simulator detection |
| `IosCipher` | ios_cipher.dfy | keychain lookup and creation, and encryption and decryption as functions over the keychain items |
| `IosPlugin` | ios_plugin.dfy | the keychain and the plugin as classes, `getSecureEnclaveKey`, `encrypt`, `decrypt`, `handle` |

How platform behaviour is modelled:

- **Platform answers** are plain inputs. These are the file checks, system properties, `which su`, network capabilities, display ids, the IV the cipher picks, whether the cipher can be obtained, whether key generation succeeds, and the status the keychain lookup returns.
- **Primitives** (AES-GCM, ECIES, Base64, UTF-8) are function-valued fields of a `Primitives` or `IosPrimitives` value. The properties they must have are predicates, such as `GcmCorrect`, `EciesCorrect` and `Base64RoundTrips`. The round-trip lemmas take these predicates as hypotheses. Nothing is assumed about them anywhere else.
- **State the source changes in place** is a class whose methods are proved against the functions on values:
  - the AndroidKeyStore entries;
  - the keychain items;
  - the iOS filesystem, which the write probe can leave a file in.
- **Order of the checks.** `IsRooted` and `IsJailbroken` record in a ghost `ran` sequence which checks ran and in what order, which shows the short-circuit order.

Two behaviours of the code that a reader of the key handling should know, which the model states as proved facts:

- **The iOS plugin can create a second key.** A key under the tag must never be silently regenerated, because a new key makes every earlier ciphertext undecryptable. On iOS, though, any lookup status other than success leads to a new key under the same tag. `IosCipher.LookupFaultCreatesSecondKey` states this. For the same reason, the idempotence and round-trip lemmas need a lookup that is not disturbed.
- **Decryption provisions a key first.** Both platforms obtain, and if needed create, the key before decrypting. On iOS this happens even before the text is Base64-decoded. On Android it happens only after the length check.

## Model

| member | source | states |
|---|---|---|
| Common.ContainsOccurs | android/src/main/kotlin/com/example/native_security_kit/NativeSecurityKitPlugin.kt:249-252 | the substring test used by the probes holds exactly when the needle occurs at some index |
| Common.Lower | android/src/main/kotlin/com/example/native_security_kit/NativeSecurityKitPlugin.kt:301-303 | lowercasing maps each character on its own: A-Z and the Kelvin sign to small letters, everything else kept. In the model this keeps the length (see Left out for U+0130) |
| Common.LowerIgnoresCase | android/src/main/kotlin/com/example/native_security_kit/NativeSecurityKitPlugin.kt:301-315 | for every lower-case pattern, searching the lowercased string finds it iff the original string spells it in any mix of capitals and small letters (the Kelvin sign counting as K) |
| Common.LowerIdempotent | android/src/main/kotlin/com/example/native_security_kit/NativeSecurityKitPlugin.kt:301-303 | the lowercased string has no capital A-Z and no Kelvin sign, and lowercasing it again changes nothing |
| AndroidProbes.CheckSuperUserPaths | android/src/main/kotlin/com/example/native_security_kit/NativeSecurityKitPlugin.kt:254-271 | the loop over the ten `su` paths returns true exactly when one of them exists |
| AndroidProbes.IsRooted | android/src/main/kotlin/com/example/native_security_kit/NativeSecurityKitPlugin.kt:245-283 | rooted iff the tags contain `test-keys`, or an `su` path exists, or `which su` prints a line. The checks run in that order and stop at the first hit. A `which` that throws counts as not rooted |
| AndroidProbes.IsEmulator | android/src/main/kotlin/com/example/native_security_kit/NativeSecurityKitPlugin.kt:286-316 | emulator iff the readable system properties show QEMU (`ro.kernel.qemu` or `ro.boot.qemu` equal to "1", or `ro.hardware` contains goldfish or ranchu), or the lowercased concatenated build strings contain one of the ten markers. Unreadable properties fall through to the build check |
| AndroidProbes.MarkerChain | android/src/main/kotlin/com/example/native_security_kit/NativeSecurityKitPlugin.kt:305-315 | the ten-way `||` chain is the same as "some marker in the list occurs" |
| AndroidProbes.GoogleSdkSubsumed | android/src/main/kotlin/com/example/native_security_kit/NativeSecurityKitPlugin.kt:308-309 | "google_sdk" contains "sdk", so removing the google_sdk marker leaves the verdict unchanged on every build string |
| AndroidProbes.EmulatorBuildIgnoresCase | android/src/main/kotlin/com/example/native_security_kit/NativeSecurityKitPlugin.kt:301-315 | the build-string test trips iff the concatenated build fields spell one of the ten markers in any case |
| AndroidProbes.HardwareCaseSensitivity | android/src/main/kotlin/com/example/native_security_kit/NativeSecurityKitPlugin.kt:296-303 | the `ro.hardware` test is case-sensitive while the build-string test is not: "GOLDFISH" fails the first and, lowercased, passes the second |
| AndroidProbes.IsExternalDisplayConnected | android/src/main/kotlin/com/example/native_security_kit/NativeSecurityKitPlugin.kt:203-213 | true iff there is an application context and some display id differs from the default display 0 |
| AndroidProbes.IsVpnActive | android/src/main/kotlin/com/example/native_security_kit/NativeSecurityKitPlugin.kt:173-192 | On API 23 and later: true iff the active network exists, has capabilities and has VPN transport 4. Before API 23: true iff some network's capabilities have it. No context gives false |
| AndroidProbes.IsProxyDetected | android/src/main/kotlin/com/example/native_security_kit/NativeSecurityKitPlugin.kt:194-201 | a proxy is detected only when the `http.proxyHost` read returns a non-empty host, and always then. A throw, null or "" gives false |
| AndroidProbes.IsUsbDebuggingEnabled | android/src/main/kotlin/com/example/native_security_kit/NativeSecurityKitPlugin.kt:168-171 | false without a context; otherwise true iff the ADB setting is non-zero |
| AndroidProbes.IsDebuggerAttached | android/src/main/kotlin/com/example/native_security_kit/NativeSecurityKitPlugin.kt:110-112 | true iff a debugger is connected or the app is waiting for one |
| AndroidProbes.InstallerPackageName | android/src/main/kotlin/com/example/native_security_kit/NativeSecurityKitPlugin.kt:142-154 | with a context, the name the lookup returns (or its null) is passed back unchanged; no context or a throwing lookup gives null |
| AndroidProbes.ProbeFailuresAreNegative | android/src/main/kotlin/com/example/native_security_kit/NativeSecurityKitPlugin.kt:142-283 | the absorbed failures say no: without a context, USB debugging, VPN and external display are false and the installer is null; the try-wrapped calls give false or null when they throw (a throwing proxy read or `which su` counts as not detected, a throwing installer lookup gives null) |
| AndroidCipher.UnframeFrame | android/src/main/kotlin/com/example/native_security_kit/NativeSecurityKitPlugin.kt:326-342 | splitting the IV ‖ ciphertext envelope built with a 12-byte IV gives back that IV and that ciphertext |
| AndroidCipher.FrameUnframe | android/src/main/kotlin/com/example/native_security_kit/NativeSecurityKitPlugin.kt:335-342 | a successful split has a 12-byte IV, and joining the parts gives back the decoded bytes |
| AndroidCipher.ArrayCopy | android/src/main/kotlin/com/example/native_security_kit/NativeSecurityKitPlugin.kt:327-328 | copying between distinct arrays replaces exactly the target window with the source window and keeps the rest of the target |
| AndroidCipher.Combine | android/src/main/kotlin/com/example/native_security_kit/NativeSecurityKitPlugin.kt:326-328 | the combined array has the length of IV plus ciphertext, starts with the IV and ends with the ciphertext |
| AndroidCipher.Split | android/src/main/kotlin/com/example/native_security_kit/NativeSecurityKitPlugin.kt:335-342 | fails with "Invalid data length" iff fewer than 12 bytes were decoded. Otherwise the parts are a 12-byte IV and a rest that together make up the input |
| AndroidCipher.GetOrCreateKeySpec | android/src/main/kotlin/com/example/native_security_kit/NativeSecurityKitPlugin.kt:352-371 | succeeds iff the store loads and the alias exists or generation succeeds. An existing key is returned and the store is unchanged. A new key is stored under the alias only, and every other entry is kept |
| AndroidCipher.GetOrCreateKeyIdempotent | android/src/main/kotlin/com/example/native_security_kit/NativeSecurityKitPlugin.kt:352-371 | after a successful provisioning, a second call returns the same key and changes nothing |
| AndroidCipher.EncryptEnvelope | android/src/main/kotlin/com/example/native_security_kit/NativeSecurityKitPlugin.kt:319-331 | the result of a successful encryption decodes from Base64 to IV ‖ GCM output of the UTF-8 bytes under the provisioned key. With a 12-byte IV and a GCM that appends a 16-byte tag, the decoded length is the UTF-8 length plus 28, so two encryptions of one message have equal lengths |
| AndroidCipher.EncryptFailures | android/src/main/kotlin/com/example/native_security_kit/NativeSecurityKitPlugin.kt:319-324 | without a cipher, encryption fails before the key store is touched. A provisioning failure leaves the store unchanged. A cipher that throws in init or doFinal fails with EncryptionFailed, after the key was provisioned |
| AndroidCipher.DecryptEncrypt | android/src/main/kotlin/com/example/native_security_kit/NativeSecurityKitPlugin.kt:319-350 | given a correct GCM and Base64 and a 12-byte IV, decrypting what encryption returned gives the plaintext back and leaves the key store unchanged |
| AndroidCipher.ShortEnvelope | android/src/main/kotlin/com/example/native_security_kit/NativeSecurityKitPlugin.kt:333-336 | fewer than 12 decoded bytes fail with InvalidDataLength before the key store is touched |
| AndroidCipher.EnvelopeWithoutTag | android/src/main/kotlin/com/example/native_security_kit/NativeSecurityKitPlugin.kt:341-348 | 12 to 27 decoded bytes pass the length guard. A GCM that rejects input shorter than the tag then fails them with an authentication error, after the key is provisioned |
| AndroidPlugin.NativeSecurityKitPlugin.GetSecretKey | android/src/main/kotlin/com/example/native_security_kit/NativeSecurityKitPlugin.kt:352-371 | returns the stored key, or the generated one, which the key store then holds. On failure the store is unchanged |
| AndroidPlugin.NativeSecurityKitPlugin.EncryptData | android/src/main/kotlin/com/example/native_security_kit/NativeSecurityKitPlugin.kt:319-331 | the result and the new key-store contents are those of `Encrypt` on the old contents: the cipher is obtained, then the key, then GCM runs, and each step's exception ends the call |
| AndroidPlugin.NativeSecurityKitPlugin.DecryptData | android/src/main/kotlin/com/example/native_security_kit/NativeSecurityKitPlugin.kt:333-350 | the result and the new key-store contents are those of `Decrypt` on the old contents: Base64, the length guard, the cipher, the key, then GCM, in that order |
| AndroidPlugin.NativeSecurityKitPlugin.OnMethodCall | android/src/main/kotlin/com/example/native_security_kit/NativeSecurityKitPlugin.kt:70-140 | gives the reply for each of the 14 method names. encrypt and decrypt without `data` reply INVALID_ARGUMENT "Data cannot be null" with the store untouched. Otherwise they reply ENCRYPTION_ERROR or DECRYPTION_ERROR with the exception. Only encrypt and decrypt change the store, and unknown names get notImplemented |
| IosProbes.CheckJailbreakPaths | ios/Classes/NativeSecurityKitPlugin.swift:58-72 | the loop over the seven paths returns true exactly when one of them exists |
| IosProbes.IsJailbroken | ios/Classes/NativeSecurityKitPlugin.swift:54-92 | false on the simulator. On a device: true iff a known path exists, or writing and then removing the probe file both succeed, or `cydia://` opens. It stops at the first hit, and the filesystem afterwards is as the probe leaves it |
| IosProbes.RemovalFailureFallsThrough | ios/Classes/NativeSecurityKitPlugin.swift:75-87 | a successful write followed by a failed removal leaves the probe file behind, and the verdict then rests on the URL scheme alone |
| IosProbes.ProbeFileOnly | ios/Classes/NativeSecurityKitPlugin.swift:75-83 | detection changes no file except the probe file, and it creates that file only when the removal fails |
| IosProbes.SimulatorNeverJailbroken | ios/Classes/NativeSecurityKitPlugin.swift:54-108 | isSimulator is true exactly on the simulator target. There isJailbroken is false whatever the files and URL schemes, and the filesystem is untouched |
| IosCipher.FindKeyAppend | ios/Classes/NativeSecurityKitPlugin.swift:122-163 | adding an item at the end leaves the key found for a tag unchanged when one was found before; otherwise the lookup finds the added key if it carries the tag, and nothing if not |
| IosCipher.GetOrCreateKeyIdempotent | ios/Classes/NativeSecurityKitPlugin.swift:112-164 | after a key is obtained without a lookup fault beside an existing key, a later undisturbed lookup returns the same key and changes nothing |
| IosCipher.LookupFaultCreatesSecondKey | ios/Classes/NativeSecurityKitPlugin.swift:122-163 | a lookup that fails while a key exists creates and returns a second key under the same tag. Later lookups still find the first key |
| IosCipher.EncryptEnvelope | ios/Classes/NativeSecurityKitPlugin.swift:166-189 | succeeds iff a public key exists, UTF-8 encoding succeeds, the algorithm is supported and ECIES succeeds. Success decodes from Base64 to the ECIES output. Every later failure keeps the keychain as the lookup left it |
| IosCipher.DecryptEncrypt | ios/Classes/NativeSecurityKitPlugin.swift:166-214 | given a correct ECIES and Base64 and an undisturbed lookup, decrypting what encryption returned gives the string back and changes nothing |
| IosCipher.InvalidBase64BeforeDecryption | ios/Classes/NativeSecurityKitPlugin.swift:191-196 | non-Base64 text fails with code -4 once the key is obtained, whatever the decryption primitives are |
| IosCipher.DecryptCreatesKey | ios/Classes/NativeSecurityKitPlugin.swift:191-192 | decrypting with an empty keychain creates the key even when the text is then rejected |
| IosPlugin.NativeSecurityKitPlugin.GetSecureEnclaveKey | ios/Classes/NativeSecurityKitPlugin.swift:112-164 | returns the key the lookup found, or the created one, which the keychain then holds. Failures are errSecParam (-50) for access control and the creation error otherwise, with the keychain unchanged |
| IosPlugin.NativeSecurityKitPlugin.EncryptString | ios/Classes/NativeSecurityKitPlugin.swift:166-189 | the result and the new keychain are those of `Encrypt` on the old keychain |
| IosPlugin.NativeSecurityKitPlugin.DecryptString | ios/Classes/NativeSecurityKitPlugin.swift:191-214 | the result and the new keychain are those of `Decrypt` on the old keychain |
| IosPlugin.NativeSecurityKitPlugin.Handle | ios/Classes/NativeSecurityKitPlugin.swift:16-51 | gives the reply for each of the six method names. encrypt and decrypt reply INVALID_ARGUMENT "Data is required" unless the arguments are a dictionary whose `data` is a String. Only encrypt and decrypt touch the keychain, only the jailbreak check touches the filesystem, and unknown names get notImplemented |

## Left out

- AES-GCM, ECIES, Base64 and UTF-8 are not implemented. They are uninterpreted functions, and only the properties named in the lemmas' hypotheses are used.
- Where the IV comes from: encryption takes it as a parameter, and the model does not capture its randomness or uniqueness across calls.
- The ECIES ephemeral key is a parameter for the same reason.
- Hardware confinement of the keys (non-exportability, the Secure Enclave token, the access-control flags) is not modelled. A key is an opaque identifier.
- Concurrency is not modelled: a method-channel call runs to completion before the next one, and simultaneous key provisioning is out of scope.
- Flutter registration and the activity lifecycle are not modelled. They only attach the channel, the context and the activity, and the context appears as an `Option`.
- toggleScreenSecurity is modelled only by its reply (null). Setting or clearing `FLAG_SECURE` on the UI thread is a window effect with no data to model.
- getAppSignatureHash's SHA-256 over the signing certificate is left out: the hash is a field of the context, and the model covers only how that field is passed back.
- getInstallerSource is the same: the installer is a field of the context, and the model covers only how that field is passed back.
- The SDK-level branch inside getInstallerPackageName is left out.
- The system-property and `which su` calls through reflection or exec are modelled by their answer or by `Threw`. The process plumbing is not.
- Android `data` of a type other than String is modelled as absent. Whether `call.argument<String>` throws on such a value is left out.
- Common.Lower: lowercases A-Z and the Kelvin sign only. `String.lowercase()` also lowercases other non-ASCII characters. All of those give non-ASCII results, except U+0130 (capital I with dot), which becomes 'i' followed by U+0307. Leaving such characters unchanged does not change the emulator verdict. The markers are ASCII, no marker ends in 'i', and every 'i' inside a marker is followed by an ASCII letter, never by U+0307. So an 'i' produced from U+0130 can never be part of a marker occurrence. The model's lowercasing keeps the length, but the real one does not in this case.
- AndroidCipher.ArrayCopy: requires distinct arrays, because the source never copies an array onto itself. Overlapping `System.arraycopy` is not modelled.
- Android's `KeyStore.load` failure is a single flag (`storeLoads`), and any exception from key generation is a single `KeyGenerationFailed`.
- IosCipher.FindKeyAppend: the keychain returns the first item under a tag. The real keychain does not document which duplicate `SecItemCopyMatching` returns.
- IosCipher.GetOrCreateKeyIdempotent: requires an undisturbed lookup, because on iOS any failing lookup creates another key (see IosCipher.LookupFaultCreatesSecondKey).
- AndroidCipher.Decrypt: a `cipher.init` that throws while decrypting is reported as AuthenticationFailed together with a tag failure. Both come from the cipher after the key was provisioned.
- AndroidProbes.IsVpnActive: the connectivity calls (`getSystemService`, `activeNetwork`, `getNetworkCapabilities`, `allNetworks`) are not wrapped in `try`, and neither is the "isVpnActive" branch of `onMethodCall`; one that throws (a SecurityException without ACCESS_NETWORK_STATE, say) escapes the call instead of giving false. The model's network answers cannot throw, so that escape is not captured and OnMethodCall promises a Bool reply there.
- AndroidProbes.IsExternalDisplayConnected: likewise, `getSystemService` and `getDisplays` are not wrapped in `try`; a throw from them escapes the call and is not captured.
- Error messages (`localizedDescription`, `e.message`) are modelled by the error value carried in the reply, not as text.
