/** The host the installer runs on, seen as an oracle. Shell commands and
    directory creation are abstract actions; the host's answer to each
    action, and what stat, read and the digest report about each file,
    may depend on everything done before (the action history). */
module HostEnv {
  import opened KubeEdgeTypes

  /** A file named inside a directory. Path strings are not built: how the
      source joins a directory and a name (with or without a doubled "/")
      does not matter here. */
  datatype Path = Path(dir: string, name: string)

  /** The host commands and filesystem changes the installer issues. */
  datatype Action =
    | ProbeInit                                           // file /sbin/init
    | ListEnabledUnits(pattern: string)                   // systemctl list-unit-files | grep enabled | grep <pattern>
    | Pidof(process: string)
    | Pkill(process: string)
    | StopUnit(unit: string, removeUnitFile: bool)        // systemctl stop, disable, [rm unit file,] daemon-reload
    | EnableEdgeUnit                                      // link edgecore.service, daemon-reload, enable, start
    | LaunchEdgeCore(logFile: string)                     // start the binary in the background, output to logFile
    | DetectPackageManager                                // command -v apt || command -v yum || command -v pacman
    | MakeDirs(path: string)                              // os.MkdirAll
    | FetchServiceFile(dir: string, release: Release, file: string)
    | FetchTarball(dir: string, version: Version, file: string)
    | FetchChecksum(version: Version, file: string)       // wget -qO- of the remote checksum
    | RemoveFile(target: Path)
    | ExtractAndCopy(dir: string, tarball: string, source: string, dest: string)

  /** What running an action gave: exit code, standard output, and the error
      the command runner reported (if any). */
  datatype Reply = Reply(exitCode: int, stdout: string, err: Option<string>)

  /** What stat reports about a path. */
  datatype FileInfo = Present(isDir: bool) | Absent | Unreadable(msg: string)

  /** The outcome of asking for the latest published release. */
  datatype LatestRelease = Unavailable | Unparsable | Published(version: Version)

  datatype Env = Env(
    run: (seq<Action>, Action) -> Reply,
    stat: (seq<Action>, Path) -> FileInfo,
    read: (seq<Action>, Path) -> Result<string, string>,
    sha512: (seq<Action>, Path) -> Result<string, string>,
    latest: LatestRelease,
    arch: string,
    cloudcoreContainer: string -> Probe)

  /** A value computed together with the actions issued to compute it. */
  datatype Run<T> = Run(value: T, actions: seq<Action>)

  /** Issue one action and turn its error, if any, into the result. */
  function Finish(env: Env, h: seq<Action>, a: Action): (r: Run<Option<Error>>)
    ensures r.actions == [a]
    ensures r.value.Some? <==> env.run(h, a).err.Some?
    ensures r.value.Some? ==> r.value == Some(CommandFailed(env.run(h, a).err.value))
  {
    var reply := env.run(h, a);
    if reply.err.Some? then Run(Some(CommandFailed(reply.err.value)), [a]) else Run(None, [a])
  }
}
