/** The Linux installer of keadm (common_others.go) as functions of the
    host oracle `env` and the action history `h`. Each function returns its
    result together with the actions it issues, in order. */
module Installer {
  import opened KubeEdgeTypes
  import opened Text
  import opened Artifacts
  import opened HostEnv

  const KUBE_EDGE_PATH := "/etc/kubeedge/"
  const KUBE_EDGE_USR_BIN_PATH := "/usr/local/bin"
  const KUBE_EDGE_LOG_PATH := "/var/log/kubeedge/"
  const KUBE_CLOUD_BINARY_NAME := "cloudcore"
  const KUBE_EDGE_BINARY_NAME := "edgecore"
  const CLOUD_SERVICE_FILE := "cloudcore.service"
  const EDGE_SERVICE_FILE := "edgecore.service"
  const SYSTEMD_BOOT_PATH := Path("/run/systemd", "system")
  const SYSTEMD_UNIT_DIR := "/etc/systemd/system"

  // ---------------------------------------------------------------------
  // Probes

  /** Exit code 0 means yes, 1 means no, anything else is a failed probe
      that reports the runner's error. */
  function ClassifyExit(reply: Reply): (p: Probe)
    ensures p.running <==> reply.exitCode == 0
    ensures (reply.exitCode == 0 || reply.exitCode == 1) ==> p.err == None
    ensures (reply.exitCode != 0 && reply.exitCode != 1) ==> p.err == reply.err
  {
    if reply.exitCode == 0 then Probe(true, None)
    else if reply.exitCode == 1 then Probe(false, None)
    else Probe(false, reply.err)
  }

  /** isEdgeCoreServiceRunning: is an enabled unit file matching `pattern` listed? */
  function UnitEnabled(env: Env, h: seq<Action>, pattern: string): (r: Run<Probe>)
    ensures r.actions == [ListEnabledUnits(pattern)]
    ensures r.value == ClassifyExit(env.run(h, ListEnabledUnits(pattern)))
  {
    Run(ClassifyExit(env.run(h, ListEnabledUnits(pattern))), [ListEnabledUnits(pattern)])
  }

  /** IsKubeEdgeProcessRunning: does pidof find the process? */
  function ProcessRunning(env: Env, h: seq<Action>, proc: string): (r: Run<Probe>)
    ensures r.actions == [Pidof(proc)]
    ensures r.value == ClassifyExit(env.run(h, Pidof(proc)))
  {
    Run(ClassifyExit(env.run(h, Pidof(proc))), [Pidof(proc)])
  }

  /** HasSystemd: `file /sbin/init` succeeding is enough; otherwise systemd
      counts as present when /run/systemd/system is a directory. */
  function HasSystemd(env: Env, h: seq<Action>): (r: Run<bool>)
    ensures r.actions == [ProbeInit]
    ensures r.value <==> (env.run(h, ProbeInit).err.None?
                          || env.stat(h + [ProbeInit], SYSTEMD_BOOT_PATH) == Present(true))
  {
    if env.run(h, ProbeInit).err.None? then Run(true, [ProbeInit])
    else match env.stat(h + [ProbeInit], SYSTEMD_BOOT_PATH)
      case Present(isDir) => Run(isDir, [ProbeInit])
      case _ => Run(false, [ProbeInit])
  }

  // ---------------------------------------------------------------------
  // Service file

  /** The unit file of a component; other component types are refused. */
  function ServiceFileName(ct: ComponentType): (r: Result<string, Error>)
    ensures r.Ok? <==> ct.CloudCore? || ct.EdgeCore?
    ensures r.Ok? ==> r.value == ComponentName(ct) + ".service"
    ensures r.Err? ==> r.error == ComponentNotSupported(ct)
  {
    match ct
    case CloudCore => Ok(CLOUD_SERVICE_FILE)
    case EdgeCore => Ok(EDGE_SERVICE_FILE)
    case Unsupported(_) => Err(ComponentNotSupported(ct))
  }

  /** The release line the unit file is fetched from: the requested one,
      unless the latest published release is known and older, in which case
      the latest one. It is never newer than either. */
  function UnitFileRelease(requested: Version, latest: LatestRelease): (r: Release)
    ensures ReleaseAtMost(r, ReleaseOf(requested))
    ensures latest.Published? ==> ReleaseAtMost(r, ReleaseOf(latest.version))
    ensures (latest.Published? && Newer(requested, latest.version)) ==> r == ReleaseOf(latest.version)
    ensures !(latest.Published? && Newer(requested, latest.version)) ==> r == ReleaseOf(requested)
  {
    if latest.Published? && Newer(requested, latest.version) then ReleaseOf(latest.version)
    else ReleaseOf(requested)
  }

  /** downloadServiceFile: with systemd, fetch the component's unit file into
      `storeDir` unless it is already there. */
  function DownloadServiceFile(env: Env, h: seq<Action>, ct: ComponentType, version: Version,
                               storeDir: string): (r: Run<Option<Error>>)
  {
    var sd := HasSystemd(env, h);
    if !sd.value then Run(None, sd.actions)
    else match ServiceFileName(ct)
      case Err(e) => Run(Some(e), sd.actions)
      case Ok(name) =>
        match env.stat(h + sd.actions, Path(storeDir, name))
        case Present(_) => Run(None, sd.actions)
        case Unreadable(msg) => Run(Some(StatFailed(msg)), sd.actions)
        case Absent =>
          var fetch := Finish(env, h + sd.actions,
                              FetchServiceFile(storeDir, UnitFileRelease(version, env.latest), name));
          Run(fetch.value, sd.actions + fetch.actions)
  }

  // ---------------------------------------------------------------------
  // Download and verification

  /** What retryDownload and checkSum work on: the tarball, its checksum
      sidecar, the version and the directory they live in. */
  datatype Fetch = Fetch(file: string, checksumFile: string, version: Version, dir: string)

  function ArtifactFetch(version: Version, arch: string, dir: string): Fetch {
    Fetch(TarballName(version, arch), ChecksumName(version, arch), version, dir)
  }

  /** checkSum: compare the tarball's SHA-512 digest with the local sidecar
      (newlines removed) when it exists, otherwise with the remote checksum. */
  function CheckSum(env: Env, h: seq<Action>, f: Fetch): (r: Run<Result<bool, Error>>)
    ensures r.actions == [] || r.actions == [FetchChecksum(f.version, f.checksumFile)]
    ensures r.actions != [] <==> env.sha512(h, Path(f.dir, f.file)).Ok? && !env.stat(h, Path(f.dir, f.checksumFile)).Present?
    ensures r.value.Err? ==> r.value.error.DigestFailed? || r.value.error.ReadFailed? || r.value.error.CommandFailed?
  {
    match env.sha512(h, Path(f.dir, f.file))
    case Err(msg) => Run(Err(DigestFailed(f.file, msg)), [])
    case Ok(actual) =>
      if env.stat(h, Path(f.dir, f.checksumFile)).Present? then
        match env.read(h, Path(f.dir, f.checksumFile))
        case Err(msg) => Run(Err(ReadFailed(msg)), [])
        case Ok(content) => Run(Ok(StripNewlines(content) == actual), [])
      else
        var reply := env.run(h, FetchChecksum(f.version, f.checksumFile));
        if reply.err.Some? then Run(Err(CommandFailed(reply.err.value)), [FetchChecksum(f.version, f.checksumFile)])
        else Run(Ok(reply.stdout == actual), [FetchChecksum(f.version, f.checksumFile)])
  }

  /** retryDownload from attempt `k` of `n`: download, verify, and on a
      mismatch remove the tarball and try again. */
  function RetryFrom(env: Env, h: seq<Action>, f: Fetch, n: nat, k: nat): (r: Run<Option<Error>>)
    decreases n - k
  {
    if k >= n then Run(Some(DownloadFailed(f.file)), [])
    else
      var download := FetchTarball(f.dir, f.version, f.file);
      var dl := Finish(env, h, download);
      if dl.value.Some? then dl
      else
        var cs := CheckSum(env, h + [download], f);
        match cs.value
        case Err(e) => Run(Some(e), [download] + cs.actions)
        case Ok(true) => Run(None, [download] + cs.actions)
        case Ok(false) =>
          var remove := RemoveFile(Path(f.dir, f.file));
          var rm := Finish(env, h + [download] + cs.actions, remove);
          if rm.value.Some? then Run(rm.value, [download] + cs.actions + [remove])
          else
            var rest := RetryFrom(env, h + [download] + cs.actions + [remove], f, n, k + 1);
            Run(rest.value, [download] + cs.actions + [remove] + rest.actions)
  }

  function RetryDownload(env: Env, h: seq<Action>, f: Fetch, retries: nat): Run<Option<Error>> {
    RetryFrom(env, h, f, retries, 0)
  }

  // ---------------------------------------------------------------------
  // Installation

  /** An answer to the "delete and download again?" question. */
  datatype Answer = Yes | No | AnswerError(msg: string)

  /** The first yes/no among the answers; failed answers are skipped. */
  function FirstDecision(answers: seq<Answer>): (d: Option<bool>)
    ensures d.Some? <==> exists k :: 0 <= k < |answers| && !answers[k].AnswerError?
    ensures d.Some? ==> exists k :: 0 <= k < |answers| && !answers[k].AnswerError? && d.value == answers[k].Yes?
                                    && forall j :: 0 <= j < k ==> answers[j].AnswerError?
  {
    if answers == [] then None
    else if answers[0].Yes? then Some(true)
    else if answers[0].No? then Some(false)
    else
      var d := FirstDecision(answers[1..]);
      assert forall k :: 1 <= k < |answers| ==> answers[k] == answers[1..][k - 1];
      if d.Some? then
        var k :| 0 <= k < |answers[1..]| && !answers[1..][k].AnswerError? && d.value == answers[1..][k].Yes?
                 && forall j :: 0 <= j < k ==> answers[1..][j].AnswerError?;
        assert forall j :: 0 <= j < k + 1 ==> answers[j].AnswerError?;
        d
      else d
  }

  /** Where the tarball is kept: the option, or /etc/kubeedge/ when it is empty. */
  function TarballDir(opts: InstallOptions): (dir: string)
    ensures opts.tarballPath == "" ==> dir == KUBE_EDGE_PATH
    ensures opts.tarballPath != "" ==> dir == opts.tarballPath
  {
    if opts.tarballPath == "" then KUBE_EDGE_PATH else opts.tarballPath
  }

  /** Make sure a usable tarball is in place: verify one that is present
      (asking whether to replace it when it fails), download one that is
      absent, and give up on a stat error. */
  function Acquire(env: Env, h: seq<Action>, f: Fetch, answers: seq<Answer>, retries: nat): (r: Run<Option<Error>>)
    requires FirstDecision(answers).Some?
  {
    match env.stat(h, Path(f.dir, f.file))
    case Unreadable(msg) => Run(Some(StatFailed(msg)), [])
    case Absent => RetryDownload(env, h, f, retries)
    case Present(_) =>
      var cs := CheckSum(env, h, f);
      if (cs.value.Ok? && cs.value.value) || !FirstDecision(answers).value then Run(None, cs.actions)
      else
        var remove := RemoveFile(Path(f.dir, f.file));
        var rm := Finish(env, h + cs.actions, remove);
        if rm.value.Some? then Run(rm.value, cs.actions + [remove])
        else
          var rd := RetryDownload(env, h + cs.actions + [remove], f, retries);
          Run(rd.value, cs.actions + [remove] + rd.actions)
  }

  /** Where the component's binary sits inside the extracted release. */
  function BinarySource(ct: ComponentType, dirname: string): (s: Option<string>)
    ensures s.Some? <==> ct.CloudCore? || ct.EdgeCore?
    ensures ct.CloudCore? ==> s == Some(dirname + "/cloud/cloudcore/cloudcore")
    ensures ct.EdgeCore? ==> s == Some(dirname + "/edge/edgecore")
  {
    match ct
    case CloudCore =>
      assert "/cloud/cloudcore/" + KUBE_CLOUD_BINARY_NAME == "/cloud/cloudcore/cloudcore";
      Some(dirname + ("/cloud/cloudcore/" + KUBE_CLOUD_BINARY_NAME))
    case EdgeCore =>
      assert "/edge/" + KUBE_EDGE_BINARY_NAME == "/edge/edgecore";
      Some(dirname + ("/edge/" + KUBE_EDGE_BINARY_NAME))
    case Unsupported(_) => None
  }

  /** Untar the release in the tarball directory and copy the binary to /usr/local/bin. */
  function PlaceBinary(env: Env, h: seq<Action>, ct: ComponentType, f: Fetch, dirname: string): (r: Run<Option<Error>>)
    ensures ct.Unsupported? ==> r == Run(None, [])
    ensures !ct.Unsupported? ==> r.actions == [ExtractAndCopy(f.dir, f.file, BinarySource(ct, dirname).value, KUBE_EDGE_USR_BIN_PATH)]
    ensures r.value.Some? <==> !ct.Unsupported? && env.run(h, r.actions[0]).err.Some?
    ensures r.value.Some? ==> r.value == Some(CommandFailed(env.run(h, r.actions[0]).err.value))
  {
    match BinarySource(ct, dirname)
    case None => Run(None, [])
    case Some(source) => Finish(env, h, ExtractAndCopy(f.dir, f.file, source, KUBE_EDGE_USR_BIN_PATH))
  }

  /** The directory creations installKubeEdge starts with. */
  function Prelude(opts: InstallOptions): seq<Action> {
    (if opts.tarballPath == "" then [] else [MakeDirs(opts.tarballPath)]) + [MakeDirs(KUBE_EDGE_PATH)]
  }

  /** The error of the directory creations, if any. */
  function PreludeError(env: Env, h: seq<Action>, opts: InstallOptions): (r: Run<Option<Error>>)
    ensures 0 < |r.actions| <= |Prelude(opts)| && r.actions == Prelude(opts)[..|r.actions|]
    ensures r.value.None? ==> r.actions == Prelude(opts)
    ensures r.value.Some? ==> r.value == Some(MkdirFailed(r.actions[|r.actions| - 1].path))
    ensures opts.tarballPath != "" && env.run(h, MakeDirs(opts.tarballPath)).err.Some? ==>
      r == Run(Some(MkdirFailed(opts.tarballPath)), [MakeDirs(opts.tarballPath)])
  {
    if opts.tarballPath != "" && env.run(h, MakeDirs(opts.tarballPath)).err.Some? then
      Run(Some(MkdirFailed(opts.tarballPath)), [MakeDirs(opts.tarballPath)])
    else if env.run(h + Prelude(opts)[..|Prelude(opts)| - 1], MakeDirs(KUBE_EDGE_PATH)).err.Some? then
      Run(Some(MkdirFailed(KUBE_EDGE_PATH)), Prelude(opts))
    else Run(None, Prelude(opts))
  }

  /** installKubeEdge: prepare directories, acquire and verify the release,
      fetch the unit file into /etc/kubeedge/ and place the binary. */
  function InstallKubeEdge(env: Env, h: seq<Action>, opts: InstallOptions, version: Version,
                           answers: seq<Answer>, retries: nat): (r: Run<Option<Error>>)
    requires FirstDecision(answers).Some?
  {
    var pre := PreludeError(env, h, opts);
    if pre.value.Some? then pre
    else
      var f := ArtifactFetch(version, env.arch, TarballDir(opts));
      var acq := Acquire(env, h + pre.actions, f, answers, retries);
      if acq.value.Some? then Run(acq.value, pre.actions + acq.actions)
      else
        var h2 := h + pre.actions + acq.actions;
        var svc := DownloadServiceFile(env, h2, opts.componentType, version, KUBE_EDGE_PATH);
        if svc.value.Some? then Run(Some(ServiceFileFailed(svc.value.value)), pre.actions + acq.actions + svc.actions)
        else
          var place := PlaceBinary(env, h2 + svc.actions, opts.componentType, f, DirName(version, env.arch));
          Run(place.value, pre.actions + acq.actions + svc.actions + place.actions)
  }

  // ---------------------------------------------------------------------
  // Stopping and starting

  /** The systemd unit KillKubeEdgeBinary stops: "edgecore" when such an
      enabled unit is listed, else "edge" when one is, else none. */
  function KillUnit(edge: Probe, edgecore: Probe): (u: Option<string>)
    ensures edgecore.running && edgecore.err.None? ==> u == Some("edgecore")
    ensures u == Some("edge") <==> edge.running && edge.err.None? && !(edgecore.running && edgecore.err.None?)
    ensures u == None <==> !(edge.running && edge.err.None?) && !(edgecore.running && edgecore.err.None?)
  {
    var unit := None;
    var unit := if edge.running && edge.err.None? then Some("edge") else unit;
    if edgecore.running && edgecore.err.None? then Some("edgecore") else unit
  }

  function UnitFilePath(unit: string): Path {
    Path(SYSTEMD_UNIT_DIR, unit + ".service")
  }

  /** KillKubeEdgeBinary: cloudcore is always killed with pkill. For any
      other process, systemd and the enabled units are probed; the matched
      unit is stopped, disabled and (unless its unit file is known to be
      absent) removed, or the process is killed with pkill when no unit
      matched or there is no systemd. */
  function KillKubeEdgeBinary(env: Env, h: seq<Action>, proc: string): (r: Run<Option<Error>>)
    ensures proc == "cloudcore" ==> r.actions == [Pkill(proc)]
    ensures proc != "cloudcore" ==>
      |r.actions| == 4 && r.actions[..3] == [ProbeInit, ListEnabledUnits("edge"), ListEnabledUnits("edgecore")]
    ensures r.value.Some? <==> env.run(h + r.actions[..|r.actions| - 1], r.actions[|r.actions| - 1]).err.Some?
    ensures r.value.Some? ==>
      r.value == Some(CommandFailed(env.run(h + r.actions[..|r.actions| - 1], r.actions[|r.actions| - 1]).err.value))
  {
    if proc == "cloudcore" then
      assert h + [Pkill(proc)][..0] == h;
      Finish(env, h, Pkill(proc))
    else
      var sd := HasSystemd(env, h);
      var edge := UnitEnabled(env, h + sd.actions, "edge");
      var edgecore := UnitEnabled(env, h + sd.actions + edge.actions, "edgecore");
      var probes := sd.actions + edge.actions + edgecore.actions;
      var unit := KillUnit(edge.value, edgecore.value);
      var command :=
        if sd.value && unit.Some? then StopUnit(unit.value, !env.stat(h + probes, UnitFilePath(unit.value)).Absent?)
        else Pkill(proc);
      var last := Finish(env, h + probes, command);
      assert (probes + last.actions)[..3] == probes;
      Run(last.value, probes + last.actions)
  }

  /** The log file of a directly launched edgecore, as runEdgeCore writes it:
      under the tarball directory, outside the log directory it creates. */
  function EdgeCoreLogAsWritten(): string {
    KUBE_EDGE_PATH + "kubeedge/edge/" + KUBE_EDGE_BINARY_NAME + ".log"
  }

  /** The log file runEdgeCore announces: inside the log directory it creates. */
  function EdgeCoreLog(): string {
    KUBE_EDGE_LOG_PATH + KUBE_EDGE_BINARY_NAME + ".log"
  }

  /** runEdgeCore's steps with the direct launch redirecting to `logFile`:
      create the log directory, then start edgecore through systemd when
      present, otherwise directly in the background. */
  function StartEdgeCore(env: Env, h: seq<Action>, logFile: string): (r: Run<Option<Error>>)
    ensures |r.actions| >= 1 && r.actions[0] == MakeDirs(KUBE_EDGE_LOG_PATH)
    ensures |r.actions| == 1 <==> env.run(h, MakeDirs(KUBE_EDGE_LOG_PATH)).err.Some?
    ensures |r.actions| == 1 ==> r.value == Some(MkdirFailed(KUBE_EDGE_LOG_PATH))
    ensures |r.actions| > 1 ==>
      && |r.actions| == 3 && r.actions[1] == ProbeInit
      && r.actions[2] == (if HasSystemd(env, h + [MakeDirs(KUBE_EDGE_LOG_PATH)]).value then EnableEdgeUnit
                          else LaunchEdgeCore(logFile))
      && r.value == Finish(env, h + [MakeDirs(KUBE_EDGE_LOG_PATH), ProbeInit], r.actions[2]).value
  {
    var mk := MakeDirs(KUBE_EDGE_LOG_PATH);
    if env.run(h, mk).err.Some? then Run(Some(MkdirFailed(KUBE_EDGE_LOG_PATH)), [mk])
    else
      var sd := HasSystemd(env, h + [mk]);
      var command := if sd.value then EnableEdgeUnit else LaunchEdgeCore(logFile);
      var start := Finish(env, h + [mk] + sd.actions, command);
      assert h + [mk] + sd.actions == h + [mk, ProbeInit];
      Run(start.value, [mk] + sd.actions + start.actions)
  }

  /** runEdgeCore as written: the direct launch redirects to
      EdgeCoreLogAsWritten, outside the log directory it has created. */
  function RunEdgeCore(env: Env, h: seq<Action>): (r: Run<Option<Error>>)
    ensures env.run(h, MakeDirs(KUBE_EDGE_LOG_PATH)).err.None?
            && !HasSystemd(env, h + [MakeDirs(KUBE_EDGE_LOG_PATH)]).value ==>
      r.actions == [MakeDirs(KUBE_EDGE_LOG_PATH), ProbeInit, LaunchEdgeCore(EdgeCoreLogAsWritten())]
  {
    StartEdgeCore(env, h, EdgeCoreLogAsWritten())
  }

  /** runEdgeCore as evidently intended: the direct launch redirects to the
      log file it announces, EdgeCoreLog. */
  function RunEdgeCoreIntended(env: Env, h: seq<Action>): (r: Run<Option<Error>>)
    ensures env.run(h, MakeDirs(KUBE_EDGE_LOG_PATH)).err.None?
            && !HasSystemd(env, h + [MakeDirs(KUBE_EDGE_LOG_PATH)]).value ==>
      r.actions == [MakeDirs(KUBE_EDGE_LOG_PATH), ProbeInit, LaunchEdgeCore(EdgeCoreLog())]
  {
    StartEdgeCore(env, h, EdgeCoreLog())
  }

  // ---------------------------------------------------------------------
  // Package manager and running components

  datatype PackageManager = Apt | Yum | Pacman

  function ManagerName(m: PackageManager): string {
    match m
    case Apt => "apt"
    case Yum => "yum"
    case Pacman => "pacman"
  }

  /** GetPackageManager's reading of the probe's output: the first of apt,
      yum, pacman that the output ends with; none when the probe failed. */
  function PackageManagerOf(reply: Reply): Option<PackageManager> {
    if reply.err.Some? then None
    else if HasSuffix(reply.stdout, "apt") then Some(Apt)
    else if HasSuffix(reply.stdout, "yum") then Some(Yum)
    else if HasSuffix(reply.stdout, "pacman") then Some(Pacman)
    else None
  }

  function GetPackageManager(env: Env, h: seq<Action>): (r: Run<Option<PackageManager>>)
    ensures r.actions == [DetectPackageManager]
  {
    Run(PackageManagerOf(env.run(h, DetectPackageManager)), [DetectPackageManager])
  }

  /** The installer flavour picked for a package manager. */
  datatype OSFamily = DebOS | RpmOS | PacmanOS

  /** GetOSInterface; no supported package manager is the fatal
      `NoPackageManager` result. */
  function GetOSInterface(env: Env, h: seq<Action>): (r: Run<Result<OSFamily, Error>>)
    ensures r.actions == [DetectPackageManager]
    ensures r.value.Err? <==> GetPackageManager(env, h).value.None?
    ensures r.value.Err? ==> r.value.error == NoPackageManager
    ensures GetPackageManager(env, h).value == Some(Apt) <==> r.value == Ok(DebOS)
    ensures GetPackageManager(env, h).value == Some(Yum) <==> r.value == Ok(RpmOS)
    ensures GetPackageManager(env, h).value == Some(Pacman) <==> r.value == Ok(PacmanOS)
  {
    var pm := GetPackageManager(env, h);
    match pm.value
    case Some(Apt) => Run(Ok(DebOS), pm.actions)
    case Some(Yum) => Run(Ok(RpmOS), pm.actions)
    case Some(Pacman) => Run(Ok(PacmanOS), pm.actions)
    case None => Run(Err(NoPackageManager), pm.actions)
  }

  /** The module found running and the probe error returned with it. */
  datatype ModuleReport = ModuleReport(found: ModuleRunning, err: Option<Error>)

  function ProbeError(p: Probe): Option<Error> {
    if p.err.Some? then Some(CommandFailed(p.err.value)) else None
  }

  /** RunningModule: cloudcore is probed first and wins; a failed cloudcore
      probe is returned at once; edgecore is probed only after a clean "no". */
  function RunningModule(env: Env, h: seq<Action>): (r: Run<Result<ModuleReport, Error>>)
    ensures r.value.Err? ==> r.value.error == NoPackageManager && r.actions == [DetectPackageManager]
    ensures r.value.Ok? ==> |r.actions| >= 2 && r.actions[..2] == [DetectPackageManager, Pidof(KUBE_CLOUD_BINARY_NAME)]
    ensures r.value.Ok? ==>
      var cloud := ProcessRunning(env, h + [DetectPackageManager], KUBE_CLOUD_BINARY_NAME).value;
      && (r.value.value.found == CloudRunning <==> cloud.running)
      && (cloud.running || cloud.err.Some? <==> |r.actions| == 2)
      && (!cloud.running && cloud.err.Some? ==> r.value.value == ModuleReport(NoneRunning, ProbeError(cloud)))
    ensures r.value.Ok? ==>
      var cloud := ProcessRunning(env, h + [DetectPackageManager], KUBE_CLOUD_BINARY_NAME).value;
      var edge := ProcessRunning(env, h + [DetectPackageManager, Pidof(KUBE_CLOUD_BINARY_NAME)], KUBE_EDGE_BINARY_NAME).value;
      !cloud.running && cloud.err.None? ==>
        && r.actions == [DetectPackageManager, Pidof(KUBE_CLOUD_BINARY_NAME), Pidof(KUBE_EDGE_BINARY_NAME)]
        && (r.value.value.found == EdgeRunning <==> edge.running)
        && (!edge.running ==> r.value.value == ModuleReport(NoneRunning, ProbeError(edge)))
    ensures r.value.Ok? && r.value.value.found != NoneRunning ==> r.value.value.err.None?
  {
    var os := GetOSInterface(env, h);
    if os.value.Err? then Run(Err(os.value.error), os.actions)
    else
      var cloud := ProcessRunning(env, h + os.actions, KUBE_CLOUD_BINARY_NAME);
      if cloud.value.running then Run(Ok(ModuleReport(CloudRunning, None)), os.actions + cloud.actions)
      else if cloud.value.err.Some? then Run(Ok(ModuleReport(NoneRunning, ProbeError(cloud.value))), os.actions + cloud.actions)
      else
        assert h + os.actions + cloud.actions == h + [DetectPackageManager, Pidof(KUBE_CLOUD_BINARY_NAME)];
        var edge := ProcessRunning(env, h + os.actions + cloud.actions, KUBE_EDGE_BINARY_NAME);
        var report :=
          if edge.value.running then ModuleReport(EdgeRunning, None)
          else ModuleReport(NoneRunning, ProbeError(edge.value));
        Run(Ok(report), os.actions + cloud.actions + edge.actions)
  }

  /** RunningModuleV2: the containerised cloudcore check first, then the
      edgecore process; probe errors are dropped and never returned. */
  function RunningModuleV2(env: Env, h: seq<Action>, opts: ResetOptions): (r: Run<Result<ModuleRunning, Error>>)
    ensures r.value.Err? ==> r.value.error == NoPackageManager && r.actions == [DetectPackageManager]
    ensures r.value.Ok? ==>
      && (r.value.value == CloudRunning <==> env.cloudcoreContainer(opts.kubeconfig).running)
      && (r.value.value == EdgeRunning <==>
            !env.cloudcoreContainer(opts.kubeconfig).running
            && env.run(h + [DetectPackageManager], Pidof(KUBE_EDGE_BINARY_NAME)).exitCode == 0)
  {
    var os := GetOSInterface(env, h);
    if os.value.Err? then Run(Err(os.value.error), os.actions)
    else if env.cloudcoreContainer(opts.kubeconfig).running then Run(Ok(CloudRunning), os.actions)
    else
      var edge := ProcessRunning(env, h + os.actions, KUBE_EDGE_BINARY_NAME);
      Run(Ok(if edge.value.running then EdgeRunning else NoneRunning), os.actions + edge.actions)
  }
}
