/** Value types shared by the keadm installer model: versions, component
    roles, probe results and the errors the installer returns. */
module KubeEdgeTypes {

  datatype Option<T> = None | Some(value: T)

  datatype Result<T, E> = Ok(value: T) | Err(error: E)

  /** A release version. Only the numeric part of a semantic version is
      modelled: pre-release and build tags are left out. */
  datatype Version = Version(major: nat, minor: nat, patch: nat)

  /** semver's GT on the numeric part: lexicographic on (major, minor, patch). */
  predicate Newer(a: Version, b: Version) {
    || a.major > b.major
    || (a.major == b.major && a.minor > b.minor)
    || (a.major == b.major && a.minor == b.minor && a.patch > b.patch)
  }

  /** A release line "major.minor", as used in the unit-file download URL. */
  datatype Release = Release(major: nat, minor: nat)

  function ReleaseOf(v: Version): Release {
    Release(v.major, v.minor)
  }

  predicate ReleaseAtMost(a: Release, b: Release) {
    a.major < b.major || (a.major == b.major && a.minor <= b.minor)
  }

  /** The component a keadm call targets. The source's component type is a
      string; any value other than the two roles is `Unsupported`. */
  datatype ComponentType = CloudCore | EdgeCore | Unsupported(name: string)

  function ComponentName(ct: ComponentType): string {
    match ct
    case CloudCore => "cloudcore"
    case EdgeCore => "edgecore"
    case Unsupported(name) => name
  }

  /** The component a type string names: the two role names give their
      roles, and only other strings are `Unsupported`. */
  function ParseComponentType(s: string): (ct: ComponentType)
    ensures ComponentName(ct) == s
    ensures ct.Unsupported? <==> s != "cloudcore" && s != "edgecore"
  {
    if s == "cloudcore" then CloudCore
    else if s == "edgecore" then EdgeCore
    else Unsupported(s)
  }

  datatype ModuleRunning = CloudRunning | EdgeRunning | NoneRunning

  /** The fields of the installer options that the core reads. */
  datatype InstallOptions = InstallOptions(componentType: ComponentType, tarballPath: string)

  datatype ResetOptions = ResetOptions(kubeconfig: string)

  /** The result of a yes/no probe: the flag and the error that came with it. */
  datatype Probe = Probe(running: bool, err: Option<string>)

  /** Errors returned by the Linux installer. */
  datatype Error =
    | CommandFailed(msg: string)              // the error of a host command, returned as is
    | ComponentNotSupported(component: ComponentType)
    | StatFailed(msg: string)                 // a stat error other than "does not exist"
    | ReadFailed(msg: string)
    | DigestFailed(file: string, msg: string)
    | DownloadFailed(file: string)            // the retry budget is spent
    | MkdirFailed(path: string)
    | ServiceFileFailed(cause: Error)
    | NoPackageManager                        // the fatal case of GetOSInterface

  /** The text the installer gives each error. */
  function Message(e: Error): string {
    match e
    case CommandFailed(msg) => msg
    case ComponentNotSupported(ct) => "component type " + ComponentName(ct) + " not support"
    case StatFailed(msg) => msg
    case ReadFailed(msg) => msg
    case DigestFailed(file, msg) => "failed to compute checksum for " + file + ": " + msg
    case DownloadFailed(file) => "failed to download " + file
    case MkdirFailed(path) => "not able to create " + path + " folder path"
    case ServiceFileFailed(cause) => "fail to download service file,error:{" + Message(cause) + "}"
    case NoPackageManager => "Failed to detect supported package manager command(apt, yum, pacman), exit"
  }
}
