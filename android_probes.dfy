/** The Android integrity probes of the plugin: root detection, emulator
    detection, proxy, external display, VPN and USB debugging. Every fact
    the plugin reads from the platform (build metadata, the filesystem, the
    output of `which su`, system properties, the connectivity and display
    services) is a field of `Device`, so each probe is a function of it. */
module AndroidProbes {
  import opened Common

  /** The `android.os.Build` fields the probes read. `TAGS` may be null. */
  datatype BuildInfo = BuildInfo(
    tags: Option<string>,
    fingerprint: string,
    device: string,
    model: string,
    brand: string,
    product: string,
    manufacturer: string,
    hardware: string,
    board: string,
    bootloader: string)

  /** A network as the connectivity service reports it: its capabilities may
      be null, otherwise they are the set of transport kinds it has. */
  datatype Network = Network(capabilities: Option<set<int>>)

  /** What the application context gives access to. */
  datatype AppContext = AppContext(
    adbEnabled: int,                  // Settings.Global.ADB_ENABLED, 0 when unset
    activeNetwork: Option<Network>,   // ConnectivityManager.activeNetwork
    allNetworks: seq<Network>,        // ConnectivityManager.allNetworks
    displayIds: seq<int>,             // DisplayManager.getDisplays(), their ids
    installer: Probe<Option<string>>, // installing package name lookup
    signatureHash: Option<string>)    // result of getAppSignatureHash, not modelled here

  /** Everything the Android probes observe about the running device. */
  datatype Device = Device(
    build: BuildInfo,
    files: set<string>,                          // paths for which File.exists() holds
    whichSu: Probe<Option<string>>,              // first output line of `/system/xbin/which su`
    systemProperties: Probe<map<string, string>>,// android.os.SystemProperties via reflection
    httpProxyHost: Probe<Option<string>>,        // System.getProperty("http.proxyHost")
    sdkInt: int,                                 // Build.VERSION.SDK_INT
    release: string,                             // Build.VERSION.RELEASE
    debuggerConnected: bool,                     // Debug.isDebuggerConnected()
    waitingForDebugger: bool,                    // Debug.waitingForDebugger()
    context: Option<AppContext>)                 // null before the engine attaches

  const SuPaths: seq<string> := [
    "/system/app/Superuser.apk",
    "/sbin/su",
    "/system/bin/su",
    "/system/xbin/su",
    "/data/local/xbin/su",
    "/data/local/bin/su",
    "/system/sd/xbin/su",
    "/system/bin/failsafe/su",
    "/data/local/su",
    "/su/bin/su"
  ]

  /** The substrings of the lower-cased build string that mark an emulator,
      in the order they are tested. */
  const EmulatorMarkers: seq<string> := [
    "generic",
    "unknown",
    "emulator",
    "sdk",
    "google_sdk",
    "genymotion",
    "goldfish",
    "ranchu",
    "vbox",
    "android_x86"
  ]

  /** NetworkCapabilities.TRANSPORT_VPN */
  const TransportVpn: int := 4
  /** Display.DEFAULT_DISPLAY */
  const DefaultDisplay: int := 0
  /** Build.VERSION_CODES.M */
  const VersionCodeM: int := 23

  // --- Root detection ---

  /** Build tags present and containing "test-keys". */
  predicate CheckBuildTags(build: BuildInfo)
  {
    build.tags.Some? && Contains(build.tags.value, "test-keys")
  }

  ghost predicate SuPathExists(files: set<string>)
  {
    exists i :: 0 <= i < |SuPaths| && SuPaths[i] in files
  }

  /** Looks for each superuser path in turn and stops at the first that exists. */
  method CheckSuperUserPaths(files: set<string>) returns (found: bool)
    ensures found <==> SuPathExists(files)
  {
    var i := 0;
    while i < |SuPaths|
      invariant 0 <= i <= |SuPaths|
      invariant forall j :: 0 <= j < i ==> SuPaths[j] !in files
    {
      if SuPaths[i] in files {
        return true;
      }
      i := i + 1;
    }
    return false;
  }

  /** `which su` printed a line; a failed exec counts as no line. */
  predicate CheckSuCommand(whichSu: Probe<Option<string>>)
  {
    match whichSu
    case Threw => false
    case Returned(line) => line.Some?
  }

  /** The root verdict: any of the three probes fires. */
  ghost predicate Rooted(d: Device)
  {
    CheckBuildTags(d.build) || SuPathExists(d.files) || CheckSuCommand(d.whichSu)
  }

  datatype RootCheck = BuildTags | SuperUserPaths | SuCommand

  /** `isRooted`: the three probes OR-ed with short-circuit; `ran` lists the
      probes evaluated, in order. */
  method IsRooted(d: Device) returns (rooted: bool, ghost ran: seq<RootCheck>)
    ensures rooted <==> Rooted(d)
    ensures ran == if CheckBuildTags(d.build) then [BuildTags]
                   else if SuPathExists(d.files) then [BuildTags, SuperUserPaths]
                   else [BuildTags, SuperUserPaths, SuCommand]
  {
    ran := [BuildTags];
    if CheckBuildTags(d.build) {
      return true, ran;
    }
    ran := ran + [SuperUserPaths];
    var found := CheckSuperUserPaths(d.files);
    if found {
      return true, ran;
    }
    ran := ran + [SuCommand];
    rooted := CheckSuCommand(d.whichSu);
  }

  // --- Emulator detection ---

  /** `SystemProperties.get(key)`, which gives "" for an unset property. */
  function SystemProperty(props: map<string, string>, key: string): string
  {
    if key in props then props[key] else ""
  }

  /** The system-property part of `isEmulator`; `ro.hardware` is searched
      case-sensitively. */
  predicate QemuProperties(props: map<string, string>)
  {
    SystemProperty(props, "ro.kernel.qemu") == "1"
    || SystemProperty(props, "ro.boot.qemu") == "1"
    || Contains(SystemProperty(props, "ro.hardware"), "goldfish")
    || Contains(SystemProperty(props, "ro.hardware"), "ranchu")
  }

  /** The build fields, concatenated in the order the plugin joins them. */
  function BuildString(b: BuildInfo): string
  {
    b.fingerprint + b.device + b.model + b.brand + b.product + b.manufacturer
    + b.hardware + b.board + b.bootloader
  }

  /** The denylist test on the lower-cased build string, as the chain of
      `contains` calls the plugin evaluates. */
  predicate MatchesEmulatorBuild(s: string)
  {
    Contains(s, "generic")
    || Contains(s, "unknown")
    || Contains(s, "emulator")
    || Contains(s, "sdk")
    || Contains(s, "google_sdk")
    || Contains(s, "genymotion")
    || Contains(s, "goldfish")
    || Contains(s, "ranchu")
    || Contains(s, "vbox")
    || Contains(s, "android_x86")
  }

  /** Some marker of the list occurs in `s`. */
  ghost predicate HasMarker(s: string, markers: seq<string>)
  {
    exists i :: 0 <= i < |markers| && Contains(s, markers[i])
  }

  /** `isEmulator`: the system properties are tried first; when they do not
      decide (or reading them throws), the lower-cased build string is
      searched for the markers. */
  function IsEmulator(d: Device): (emulator: bool)
    ensures emulator <==>
              (d.systemProperties.Returned? && QemuProperties(d.systemProperties.value))
              || HasMarker(Lower(BuildString(d.build)), EmulatorMarkers)
  {
    if d.systemProperties.Returned? && QemuProperties(d.systemProperties.value) then true
    else
      var s := Lower(BuildString(d.build));
      MarkerChain(s);
      MatchesEmulatorBuild(s)
  }

  /** The chain of `contains` calls tests exactly the marker list. */
  lemma MarkerChain(s: string)
    ensures MatchesEmulatorBuild(s) <==> HasMarker(s, EmulatorMarkers)
  {
    if MatchesEmulatorBuild(s) {
      var i :| 0 <= i < |EmulatorMarkers| && Contains(s, EmulatorMarkers[i]) by {
        if Contains(s, "generic") { assert EmulatorMarkers[0] == "generic"; }
        else if Contains(s, "unknown") { assert EmulatorMarkers[1] == "unknown"; }
        else if Contains(s, "emulator") { assert EmulatorMarkers[2] == "emulator"; }
        else if Contains(s, "sdk") { assert EmulatorMarkers[3] == "sdk"; }
        else if Contains(s, "google_sdk") { assert EmulatorMarkers[4] == "google_sdk"; }
        else if Contains(s, "genymotion") { assert EmulatorMarkers[5] == "genymotion"; }
        else if Contains(s, "goldfish") { assert EmulatorMarkers[6] == "goldfish"; }
        else if Contains(s, "ranchu") { assert EmulatorMarkers[7] == "ranchu"; }
        else if Contains(s, "vbox") { assert EmulatorMarkers[8] == "vbox"; }
        else { assert EmulatorMarkers[9] == "android_x86"; }
      }
    }
  }

  /** "google_sdk" adds nothing to the denylist: every string containing it
      contains "sdk", which is tested before it. */
  lemma GoogleSdkSubsumed(s: string)
    ensures Contains(s, "google_sdk") ==> Contains(s, "sdk")
    ensures HasMarker(s, EmulatorMarkers) <==> HasMarker(s, EmulatorMarkers[..4] + EmulatorMarkers[5..])
  {
    var reduced := EmulatorMarkers[..4] + EmulatorMarkers[5..];
    if Contains(s, "google_sdk") {
      assert "google_sdk"[7..10] == "sdk";
      ContainsInner(s, "google_sdk", "sdk", 7);
    }
    if HasMarker(s, EmulatorMarkers) {
      var i :| 0 <= i < |EmulatorMarkers| && Contains(s, EmulatorMarkers[i]);
      if i < 4 {
        assert reduced[i] == EmulatorMarkers[i];
      } else if i == 4 {
        assert reduced[3] == "sdk";
      } else {
        assert reduced[i - 1] == EmulatorMarkers[i];
      }
    }
    if HasMarker(s, reduced) {
      var i :| 0 <= i < |reduced| && Contains(s, reduced[i]);
      if i < 4 {
        assert reduced[i] == EmulatorMarkers[i];
      } else {
        assert reduced[i] == EmulatorMarkers[i + 1];
      }
    }
  }

  /** The build-string test ignores case: the build fields trip it exactly
      when they spell some marker in any mix of capitals and small letters. */
  lemma EmulatorBuildIgnoresCase(b: BuildInfo)
    ensures HasMarker(Lower(BuildString(b)), EmulatorMarkers)
            <==> exists i :: 0 <= i < |EmulatorMarkers| && OccursIgnoringCase(BuildString(b), EmulatorMarkers[i])
  {
    forall i | 0 <= i < |EmulatorMarkers|
      ensures Contains(Lower(BuildString(b)), EmulatorMarkers[i]) <==> OccursIgnoringCase(BuildString(b), EmulatorMarkers[i])
    {
      LowerIgnoresCase(BuildString(b), EmulatorMarkers[i]);
    }
  }

  /** `ro.hardware` is matched case-sensitively while the build string is
      lower-cased first: an upper-case "GOLDFISH" escapes the property test
      but is caught by the build-string test. */
  lemma HardwareCaseSensitivity()
    ensures !QemuProperties(map["ro.hardware" := "GOLDFISH"])
    ensures Contains(Lower("GOLDFISH"), "goldfish")
  {
    var props := map["ro.hardware" := "GOLDFISH"];
    assert SystemProperty(props, "ro.hardware") == "GOLDFISH";
    assert SystemProperty(props, "ro.kernel.qemu") == "";
    assert SystemProperty(props, "ro.boot.qemu") == "";
    LacksFirstChar("GOLDFISH", "goldfish");
    LacksFirstChar("GOLDFISH", "ranchu");
    var lowered := Lower("GOLDFISH");
    assert lowered == "goldfish";
    ContainsAt(lowered, "goldfish", 0);
  }

  // --- Network and display probes ---

  /** `isProxyDetected`: the `http.proxyHost` property is set and non-empty;
      a throwing read counts as no proxy. */
  predicate IsProxyDetected(httpProxyHost: Probe<Option<string>>): (detected: bool)
    ensures detected ==> httpProxyHost.Returned? && httpProxyHost.value.Some? && httpProxyHost.value.value != ""
    ensures httpProxyHost == Threw || httpProxyHost == Returned(None) || httpProxyHost == Returned(Some("")) ==> !detected
    ensures forall host :: host != "" && httpProxyHost == Returned(Some(host)) ==> detected
  {
    match httpProxyHost
    case Threw => false
    case Returned(host) => host.Some? && |host.value| > 0
  }

  predicate HasVpnTransport(n: Network)
  {
    n.capabilities.Some? && TransportVpn in n.capabilities.value
  }

  /** Some enumerated display is not the default one. */
  ghost predicate ExternalDisplay(context: Option<AppContext>)
  {
    context.Some?
    && exists i :: 0 <= i < |context.value.displayIds| && context.value.displayIds[i] != DefaultDisplay
  }

  /** `isExternalDisplayConnected`: scans the displays and stops at the first
      whose id is not the default display's. */
  method IsExternalDisplayConnected(context: Option<AppContext>) returns (external: bool)
    ensures external <==> ExternalDisplay(context)
  {
    if context.None? {
      return false;
    }
    var displays := context.value.displayIds;
    var i := 0;
    while i < |displays|
      invariant 0 <= i <= |displays|
      invariant forall j :: 0 <= j < i ==> displays[j] == DefaultDisplay
    {
      if displays[i] != DefaultDisplay {
        return true;
      }
      i := i + 1;
    }
    return false;
  }

  /** The VPN verdict: from API level 23 on, the active network has the VPN
      transport; before that, some network has it. */
  ghost predicate VpnActive(sdkInt: int, context: Option<AppContext>)
  {
    context.Some? &&
    if sdkInt >= VersionCodeM then
      context.value.activeNetwork.Some? && HasVpnTransport(context.value.activeNetwork.value)
    else
      exists i :: 0 <= i < |context.value.allNetworks| && HasVpnTransport(context.value.allNetworks[i])
  }

  /** `isVpnActive`: from API level 23 on, the active network's capabilities
      decide; before that, any network with the VPN transport does. */
  method IsVpnActive(sdkInt: int, context: Option<AppContext>) returns (vpn: bool)
    ensures vpn <==> VpnActive(sdkInt, context)
  {
    if context.None? {
      return false;
    }
    if sdkInt >= VersionCodeM {
      var network := context.value.activeNetwork;
      if network.None? {
        return false;
      }
      var capabilities := network.value.capabilities;
      if capabilities.None? {
        return false;
      }
      return TransportVpn in capabilities.value;
    }
    var networks := context.value.allNetworks;
    var i := 0;
    while i < |networks|
      invariant 0 <= i <= |networks|
      invariant forall j :: 0 <= j < i ==> !HasVpnTransport(networks[j])
    {
      var capabilities := networks[i].capabilities;
      if capabilities.Some? && TransportVpn in capabilities.value {
        return true;
      }
      i := i + 1;
    }
    return false;
  }

  /** `isUsbDebuggingEnabled`: the ADB setting is non-zero. */
  predicate IsUsbDebuggingEnabled(context: Option<AppContext>): (enabled: bool)
    ensures context.None? ==> !enabled
    ensures context.Some? ==> (enabled <==> context.value.adbEnabled != 0)
  {
    context.Some? && context.value.adbEnabled != 0
  }

  /** `isDebuggerAttached`, as the dispatcher computes it. */
  predicate IsDebuggerAttached(d: Device): (attached: bool)
    ensures attached <==> d.debuggerConnected || d.waitingForDebugger
  {
    d.debuggerConnected || d.waitingForDebugger
  }

  /** `getInstallerPackageName`: null without a context or when the lookup throws. */
  function InstallerPackageName(context: Option<AppContext>): (installer: Option<string>)
    ensures installer.Some? ==> context.Some? && context.value.installer == Returned(installer)
    ensures context.None? || context.value.installer.Threw? ==> installer.None?
    ensures context.Some? && context.value.installer.Returned? ==> installer == context.value.installer.value
  {
    if context.None? then None
    else match context.value.installer
      case Threw => None
      case Returned(name) => name
  }

  /** Probe failures are absorbed as a negative answer: without an
      application context every context-based probe says no (or null), and
      the calls wrapped in `try` (the proxy property, `which su`, the
      installer lookup) count as "not detected" when they throw. */
  lemma ProbeFailuresAreNegative(d: Device)
    ensures d.context.None? ==>
              && !IsUsbDebuggingEnabled(d.context)
              && !VpnActive(d.sdkInt, d.context)
              && !ExternalDisplay(d.context)
              && InstallerPackageName(d.context).None?
    ensures d.httpProxyHost.Threw? ==> !IsProxyDetected(d.httpProxyHost)
    ensures d.whichSu.Threw? ==> !CheckSuCommand(d.whichSu)
    ensures d.context.Some? && d.context.value.installer.Threw? ==> InstallerPackageName(d.context).None?
  {
  }
}
