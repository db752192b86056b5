/** The iOS integrity probes: jailbreak detection and the simulator check.
    The build target (device or simulator) is fixed when the plugin is
    compiled; the filesystem is state the write probe changes; the other
    platform answers are fields of `IosDevice`. */
module IosProbes {
  import opened Common

  /** `#if targetEnvironment(simulator)` */
  datatype BuildTarget = DeviceTarget | SimulatorTarget

  /** How the restricted-write probe goes: the write throws, the write
      succeeds and the removal throws, or both succeed. */
  datatype WriteOutcome = WriteThrows | RemoveThrows | WriteAndRemoveSucceed

  datatype IosDevice = IosDevice(
    target: BuildTarget,
    writeProbe: WriteOutcome,   // writing and removing /private/jailbreak.txt
    canOpenCydia: bool,         // UIApplication.canOpenURL(cydia://)
    systemVersion: string)      // UIDevice.current.systemVersion

  /** The files that exist, as FileManager.default sees them. */
  class FileSystem {
    var paths: set<string>

    constructor (paths: set<string>)
      ensures this.paths == paths
    {
      this.paths := paths;
    }
  }

  const JailbreakPaths: seq<string> := [
    "/Applications/Cydia.app",
    "/Library/MobileSubstrate/MobileSubstrate.dylib",
    "/bin/bash",
    "/usr/sbin/sshd",
    "/etc/apt",
    "/private/var/lib/apt/",
    "/usr/bin/ssh"
  ]

  const ProbeFile: string := "/private/jailbreak.txt"

  ghost predicate JailbreakPathExists(paths: set<string>)
  {
    exists i :: 0 <= i < |JailbreakPaths| && JailbreakPaths[i] in paths
  }

  /** The path loop of `isJailbroken`: each known path in turn, stopping at
      the first that exists. */
  method CheckJailbreakPaths(paths: set<string>) returns (found: bool)
    ensures found <==> JailbreakPathExists(paths)
  {
    var i := 0;
    while i < |JailbreakPaths|
      invariant 0 <= i <= |JailbreakPaths|
      invariant forall j :: 0 <= j < i ==> JailbreakPaths[j] !in paths
    {
      if JailbreakPaths[i] in paths {
        return true;
      }
      i := i + 1;
    }
    return false;
  }

  /** The jailbreak verdict: never on the simulator; on a device, a known
      path exists, or the restricted write and its removal both succeed, or
      the cydia:// scheme opens. */
  ghost predicate Jailbroken(d: IosDevice, paths: set<string>)
  {
    d.target == DeviceTarget
    && (JailbreakPathExists(paths) || d.writeProbe == WriteAndRemoveSucceed || d.canOpenCydia)
  }

  /** The files after the probes ran: the probe file is written only when no
      known path was found; it stays when its removal throws, and is gone
      when the removal succeeds. */
  ghost function PathsAfterProbe(d: IosDevice, paths: set<string>): set<string>
  {
    if d.target == SimulatorTarget || JailbreakPathExists(paths) then paths
    else match d.writeProbe
      case WriteThrows => paths
      case RemoveThrows => paths + {ProbeFile}
      case WriteAndRemoveSucceed => paths - {ProbeFile}
  }

  datatype JailbreakCheck = KnownPaths | RestrictedWrite | CydiaScheme

  /** `isJailbroken`: the known paths in order, stopping at the first that
      exists; then the write probe, whose removal failure is swallowed by
      the same `catch` as a write failure; then the URL scheme. `ran` lists
      the checks performed. */
  method IsJailbroken(d: IosDevice, fs: FileSystem) returns (jailbroken: bool, ghost ran: seq<JailbreakCheck>)
    modifies fs
    ensures jailbroken <==> Jailbroken(d, old(fs.paths))
    ensures fs.paths == PathsAfterProbe(d, old(fs.paths))
    ensures ran == if d.target == SimulatorTarget then []
                   else if JailbreakPathExists(old(fs.paths)) then [KnownPaths]
                   else if d.writeProbe == WriteAndRemoveSucceed then [KnownPaths, RestrictedWrite]
                   else [KnownPaths, RestrictedWrite, CydiaScheme]
  {
    if d.target == SimulatorTarget {
      return false, [];
    }
    ran := [KnownPaths];
    var found := CheckJailbreakPaths(fs.paths);
    if found {
      return true, ran;
    }
    ran := ran + [RestrictedWrite];
    match d.writeProbe {
      case WriteThrows =>
      case RemoveThrows =>
        fs.paths := fs.paths + {ProbeFile};
      case WriteAndRemoveSucceed =>
        fs.paths := fs.paths + {ProbeFile};
        fs.paths := fs.paths - {ProbeFile};
        return true, ran;
    }
    ran := ran + [CydiaScheme];
    if d.canOpenCydia {
      return true, ran;
    }
    return false, ran;
  }

  /** A failed removal after a successful write leaves the probe file
      behind and does not make the verdict: it rests on the URL scheme. */
  lemma RemovalFailureFallsThrough(d: IosDevice, paths: set<string>)
    requires d.target == DeviceTarget && !JailbreakPathExists(paths)
    requires d.writeProbe == RemoveThrows
    ensures Jailbroken(d, paths) <==> d.canOpenCydia
    ensures ProbeFile in PathsAfterProbe(d, paths)
  {
  }

  /** The probes leave the filesystem as they found it, except for the
      probe file, and they create that file only when the removal fails. */
  lemma ProbeFileOnly(d: IosDevice, paths: set<string>)
    ensures PathsAfterProbe(d, paths) - {ProbeFile} == paths - {ProbeFile}
    ensures ProbeFile in PathsAfterProbe(d, paths) && ProbeFile !in paths ==> d.writeProbe == RemoveThrows
  {
  }

  /** `isSimulator`. */
  predicate IsSimulator(target: BuildTarget)
  {
    target == SimulatorTarget
  }

  /** The two compile-time branches exclude each other: on the simulator
      `isSimulator` is true and `isJailbroken` is false whatever the files
      and URL schemes; on a device `isSimulator` is false. */
  lemma SimulatorNeverJailbroken(d: IosDevice, paths: set<string>)
    ensures IsSimulator(d.target) <==> d.target == SimulatorTarget
    ensures IsSimulator(d.target) ==> !Jailbroken(d, paths) && PathsAfterProbe(d, paths) == paths
  {
  }
}
