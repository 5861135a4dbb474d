# keadm installer core in Dafny

A model of the installation and service-lifecycle logic of KubeEdge's
`keadm` command-line tool, with proofs of what it guarantees:

- the Linux installer (`common_others.go`): artifact naming, the unit-file
  download, the checksum comparison, the bounded download-and-verify retry
  loop, `installKubeEdge`'s control flow with its confirmation loop,
  exit-code classification of probes, `KillKubeEdgeBinary`'s choice between
  `pkill` and a systemd stop, `runEdgeCore`, package-manager detection and
  the "which component is running" queries;
- the Windows probes (`common_windows.go`);
- the Windows service registration (`service_windows.go`).

The host is an oracle. `HostEnv.Env` says what every host command returns
(exit code, standard output, error), what stat, read and the SHA-512 digest
report about each file, which release is the latest, the architecture, and
what the cloudcore container probe answers. The replies to commands and
what stat, read and the digest report may depend on the whole history of
actions issued before; the latest release, the architecture and the
container probe are fixed for a run. A reply's `stdout` stands for the
value the command runner's `GetStdOut` returns. Commands are not shell text but
values of `HostEnv.Action` (download the tarball, remove it, stop a unit,
and so on).

Files and modules:

- `types.dfy` (`KubeEdgeTypes`): versions, component types, probe results,
  the installer's errors and their messages.
- `text.dfy` (`Text`): decimal printing, newline removal, suffix and
  substring tests.
- `artifacts.dfy` (`Artifacts`): tarball, checksum and directory names.
- `host_env.dfy` (`HostEnv`): the host oracle and the action datatype.
- `installer.dfy` (`Installer`): each Linux operation as a function of the
  oracle and the history, returning its result together with the actions
  it issues (`Run(value, actions)`).
- `installer_properties.dfy` (`InstallerProperties`): the guarantees of
  those functions, as lemmas.
- `host.dfy` (`LinuxHost`): class `Host`, whose `trace` field records the
  actions issued, with the step-by-step operations (`retryDownload`,
  `installKubeEdge` with its confirmation loop, `KillKubeEdgeBinary` and
  their callees) as methods. Each method is proved to return what the
  matching `Installer` function returns and to append exactly its actions.
- `windows_probe.dfy` (`WindowsProbe`): the Windows probes.
- `windows_service.dfy` (`WindowsService`): the service registry and the
  event-log sources, the install and uninstall operations on them as
  functions, their properties, and class `ServiceControlManager` whose
  methods change the registry in place as those functions say.

Behaviour of the code that a reader might not expect, modelled as written:

- In `RunningModule` a failed cloudcore probe returns at once with the
  error (common_others.go:405-406); edgecore is not probed then.
- The bound of the download-and-verify loop is `downloadRetryTimes`,
  which is defined outside the modelled files, so it is a parameter
  (`retries`). The constant 5 (`RetryTimes`) is only the `wget -t` count
  of the unit-file download.
- The Windows `RunningModuleV2` reports `NoneRunning` when the edgecore
  service is found and `EdgeRunning` otherwise.
- Without systemd, `runEdgeCore` redirects edgecore's output to
  /etc/kubeedge/kubeedge/edge/edgecore.log (common_others.go:271), not to
  the log directory it creates; `Installer.RunEdgeCore` does the same, and
  `Installer.RunEdgeCoreIntended` is the corrected variant (see Findings).

## Model

Paths are relative to the repository root.

| member | source | states |
|---|---|---|
| Artifacts.TarballName | keadm/cmd/keadm/app/cmd/util/common_others.go:316-317 | the tarball name is the extraction directory name followed by ".tar.gz" |
| Artifacts.ChecksumName | keadm/cmd/keadm/app/cmd/util/common_others.go:317-318 | the checksum sidecar name is "checksum_" + the tarball name + ".txt" |
| Artifacts.VersionStringInjective | keadm/cmd/keadm/app/cmd/util/common_others.go:316-318 | two versions printed as "major.minor.patch" are equal only if the versions are |
| Artifacts.TarballNameInjective | keadm/cmd/keadm/app/cmd/util/common_others.go:316-318 | the tarball name determines version and architecture: different (version, arch) pairs never share an artifact |
| Artifacts.ExampleVersion | keadm/cmd/keadm/app/cmd/util/common_others.go:316-318 | version 1.14.0 prints as 1.14.0 inside the artifact names |
| Artifacts.ExampleDirName | keadm/cmd/keadm/app/cmd/util/common_others.go:316-318 | for 1.14.0 on amd64 the extraction directory is kubeedge-v1.14.0-linux-amd64 |
| Artifacts.ExampleTarballName | keadm/cmd/keadm/app/cmd/util/common_others.go:316-318 | for 1.14.0 on amd64 the tarball is kubeedge-v1.14.0-linux-amd64.tar.gz |
| Artifacts.ExampleChecksumName | keadm/cmd/keadm/app/cmd/util/common_others.go:316-318 | for 1.14.0 on amd64 the checksum sidecar is checksum_kubeedge-v1.14.0-linux-amd64.tar.gz.txt |
| Text.NatToStringInjective | keadm/cmd/keadm/app/cmd/util/common_others.go:316-318 | the decimal printing of version numbers is injective |
| Text.StripNewlinesFixes | keadm/cmd/keadm/app/cmd/util/common_others.go:153 | removing every newline leaves a string unchanged exactly when it has none |
| Text.TrailingNewlineIgnored | keadm/cmd/keadm/app/cmd/util/common_others.go:153 | a newline-free digest followed by a newline reads as the digest |
| HostEnv.Finish | keadm/cmd/keadm/app/cmd/util/common_others.go:113-115 | running a command issues exactly that action and fails exactly when the runner reports an error, with that error |
| Installer.ClassifyExit | keadm/cmd/keadm/app/cmd/util/common_others.go:194-202 | exit code 0 gives (true, no error), 1 gives (false, no error), any other code (false, the runner's error); "running" holds exactly for code 0 |
| Installer.UnitEnabled | keadm/cmd/keadm/app/cmd/util/common_others.go:190-203 | isEdgeCoreServiceRunning issues one unit listing and classifies its exit code |
| Installer.ProcessRunning | keadm/cmd/keadm/app/cmd/util/common_others.go:205-218 | IsKubeEdgeProcessRunning issues one pidof and classifies its exit code |
| Installer.HasSystemd | keadm/cmd/keadm/app/cmd/util/common_others.go:175-187 | issues only the `file /sbin/init` probe; true exactly when it succeeds or /run/systemd/system is a directory |
| Installer.ServiceFileName | keadm/cmd/keadm/app/cmd/util/common_others.go:64-72 | CloudCore gives cloudcore.service, EdgeCore edgecore.service, anything else the "not support" error |
| Installer.UnitFileRelease | keadm/cmd/keadm/app/cmd/util/common_others.go:74-84 | the unit file's release line is the requested major.minor, or the latest's when the latest is known and older; never newer than either |
| Installer.FirstDecision | keadm/cmd/keadm/app/cmd/util/common_others.go:324-343 | the confirmation is the first yes/no answer, failed answers being skipped; there is one exactly when some answer is yes or no |
| Installer.TarballDir | keadm/cmd/keadm/app/cmd/util/common_others.go:296-298 | an empty tarball path becomes /etc/kubeedge/, any other is kept |
| Installer.BinarySource | keadm/cmd/keadm/app/cmd/util/common_others.go:361-378 | the copied binary is {dir}/cloud/cloudcore/cloudcore for CloudCore, {dir}/edge/edgecore for EdgeCore, none otherwise |
| Installer.KillUnit | keadm/cmd/keadm/app/cmd/util/common_others.go:226-233 | an enabled "edgecore" unit wins over "edge"; "edge" is chosen only when "edgecore" is not matched; none when neither is |
| Installer.KillKubeEdgeBinary | keadm/cmd/keadm/app/cmd/util/common_others.go:221-251 | cloudcore gets only pkill; any other process first probes systemd, "edge" and "edgecore", then runs one command; it fails exactly when that last command does, with that command's error |
| Installer.StartEdgeCore | keadm/cmd/keadm/app/cmd/util/common_others.go:257-288 | the steps of runEdgeCore for a given redirect file: the log directory is created first and a failure stops there with that directory's error; otherwise systemd is probed and either the edgecore unit is enabled or edgecore is launched into the redirect file, and the result is that command's error |
| Installer.RunEdgeCore | keadm/cmd/keadm/app/cmd/util/common_others.go:257-288 | runEdgeCore as written: without systemd and with the log directory created, the actions are the creation, the probe and a launch redirected to /etc/kubeedge/kubeedge/edge/edgecore.log (line 271) |
| Installer.RunEdgeCoreIntended | keadm/cmd/keadm/app/cmd/util/common_others.go:257-288 | the corrected runEdgeCore: the same steps with the launch redirected to /var/log/kubeedge/edgecore.log, the file announced at line 283 |
| Installer.GetPackageManager | keadm/cmd/keadm/app/cmd/util/common_others.go:446-464 | one detection command is issued; which manager it picks is PackageManagerExact |
| Installer.GetOSInterface | keadm/cmd/keadm/app/cmd/util/common_others.go:384-397 | apt, yum and pacman map to DebOS, RpmOS and PacmanOS; no manager is the fatal error |
| Installer.RunningModule | keadm/cmd/keadm/app/cmd/util/common_others.go:399-420 | CloudRunning exactly when cloudcore runs, whatever edgecore does; a failed cloudcore probe returns (NoneRunning, error) without probing edgecore; after a clean "no" from cloudcore, pidof edgecore is issued, the result is EdgeRunning exactly when it reports running, and otherwise (NoneRunning, the edgecore probe's error if any); a running module is always reported with no error |
| Installer.RunningModuleV2 | keadm/cmd/keadm/app/cmd/util/common_others.go:422-443 | never returns a probe error; CloudRunning exactly when the container probe says so; EdgeRunning exactly when not and pidof edgecore exits 0 |
| Installer.CheckSum | keadm/cmd/keadm/app/cmd/util/common_others.go:134-171 | checkSum issues at most the remote checksum fetch, exactly when the digest is computed and no sidecar is present; its errors are only digest, read and fetch failures (verdicts: CheckSumLocalSidecar, CheckSumRemote, CheckSumErrors) |
| Installer.RetryFrom | keadm/cmd/keadm/app/cmd/util/common_others.go:107-132 | the download-and-verify loop from a given attempt; its outcomes are stated by AttemptStopsAtDownload, AttemptStopsAfterChecksum, AttemptStopsAtRemoval, RoundSteps, RetryFailsExactlyWhenAllMismatch and RetryAlternates |
| Installer.RetryDownload | keadm/cmd/keadm/app/cmd/util/common_others.go:107-132 | retryDownload: the loop from the first attempt (RetryStartsWithDownload, RetryOnlyTouchesArtifact) |
| Installer.DownloadServiceFile | keadm/cmd/keadm/app/cmd/util/common_others.go:59-105 | downloadServiceFile; its behaviour is stated by ServiceFileFetchedAtMostOnce |
| Installer.Acquire | keadm/cmd/keadm/app/cmd/util/common_others.go:319-353 | getting a verified tarball in place; stated by InstallStatErrorStops, InstallAbsentDownloads, AcquireKeepsTarball, AcquireRedownloadsOnYes and AcquireOnArtifact |
| Installer.PlaceBinary | keadm/cmd/keadm/app/cmd/util/common_others.go:359-378 | an unsupported component places nothing; CloudCore and EdgeCore issue one extract-and-copy of their binary and fail exactly when it does, with that command's error |
| Installer.PreludeError | keadm/cmd/keadm/app/cmd/util/common_others.go:296-308 | the directory creations are a prefix of the tarball directory (when given) then /etc/kubeedge/; a failure stops at that directory with "not able to create" for it |
| Installer.InstallKubeEdge | keadm/cmd/keadm/app/cmd/util/common_others.go:291-382 | installKubeEdge's stages in order; stated by InstallResult, the other InstallerProperties.Install* lemmas and InstallActionsSatisfy |
| Installer.PackageManagerOf | keadm/cmd/keadm/app/cmd/util/common_others.go:449-462 | GetPackageManager's reading of the probe: a manager exactly when the probe succeeded and its output ends with that manager's name, none otherwise; stated by PackageManagerExact |
| Artifacts.VersionString | keadm/cmd/keadm/app/cmd/util/common_others.go:316-318 | the version as "%s" prints a semver version, major.minor.patch; stated by VersionStringInjective and ExampleVersion |
| Artifacts.DirName | keadm/cmd/keadm/app/cmd/util/common_others.go:316 | the extraction directory kubeedge-v{version}-linux-{arch}; stated by TarballName, TarballNameInjective and ExampleDirName |
| KubeEdgeTypes.ParseComponentType | keadm/cmd/keadm/app/cmd/util/common_others.go:65-71 | a component type string is CloudCore for "cloudcore", EdgeCore for "edgecore", and Unsupported (keeping its name) exactly for every other string |
| InstallerProperties.CheckSumActions | keadm/cmd/keadm/app/cmd/util/common_others.go:134-171 | checkSum issues no action or only the remote checksum fetch; its errors are never "failed to download" |
| InstallerProperties.CheckSumLocalSidecar | keadm/cmd/keadm/app/cmd/util/common_others.go:146-160 | with a local sidecar no command is issued and the result is true iff its text without newlines equals the digest; a digest with a final newline matches; a newline-free text matches only if equal |
| InstallerProperties.CheckSumRemote | keadm/cmd/keadm/app/cmd/util/common_others.go:161-168 | without a sidecar the remote checksum is fetched once and GetStdOut's value must equal the digest exactly: unlike the sidecar, no newline is removed from that value here |
| InstallerProperties.CheckSumErrors | keadm/cmd/keadm/app/cmd/util/common_others.go:139-162 | the digest failure, the sidecar read failure and the remote fetch failure are each returned as that error (the fetch one after issuing the fetch); checkSum errs exactly in these three cases |
| InstallerProperties.RetryAlternates | keadm/cmd/keadm/app/cmd/util/common_others.go:107-132 | downloads and removals alternate, starting with a download; success comes right after a download, within the budget; "failed to download" only after exactly `retries` download-remove rounds; any other error ends the loop within an attempt |
| InstallerProperties.AttemptStopsAfterChecksum | keadm/cmd/keadm/app/cmd/util/common_others.go:117-123 | after a successful download, a matching checksum returns no error and an erroring checksum returns that error, in both cases with exactly this download and the checksum's actions |
| InstallerProperties.AttemptStopsAtDownload | keadm/cmd/keadm/app/cmd/util/common_others.go:113-115 | a failed download is returned as that command's error, with the download as the only action |
| InstallerProperties.AttemptStopsAtRemoval | keadm/cmd/keadm/app/cmd/util/common_others.go:125-128 | after a mismatching checksum, a failed removal is returned as that command's error, the run ending at the removal |
| InstallerProperties.RoundSteps | keadm/cmd/keadm/app/cmd/util/common_others.go:109-129 | after a mismatching checksum, a successful removal goes on to the next attempt: the run is this round's download, checksum and removal followed by the next attempts, with their result |
| InstallerProperties.RetryFailsExactlyWhenAllMismatch | keadm/cmd/keadm/app/cmd/util/common_others.go:109-131 | "failed to download" is returned exactly when every attempt downloaded, mismatched and removed its tarball without error; no command or checkSum error is ever reported as it |
| InstallerProperties.RetryStartsWithDownload | keadm/cmd/keadm/app/cmd/util/common_others.go:109-115 | with a budget left, the loop's first action is the tarball download |
| InstallerProperties.RetryOnlyTouchesArtifact | keadm/cmd/keadm/app/cmd/util/common_others.go:107-132 | the loop's only actions are this tarball's download, its remote checksum and its removal |
| InstallerProperties.ServiceFileFetchedAtMostOnce | keadm/cmd/keadm/app/cmd/util/common_others.go:59-105 | without systemd nothing is fetched and nothing fails; with it the unit file is fetched at most once, into the store directory, from UnitFileRelease's line, only when stat says it is absent; an unsupported component is an error; a present file gives success with no fetch, a stat error gives that error, and a failed fetch gives the fetch's error |
| InstallerProperties.InstallStartsWithDirectories | keadm/cmd/keadm/app/cmd/util/common_others.go:296-308 | the first action creates the tarball directory (or /etc/kubeedge/), and a creation error ends the install |
| InstallerProperties.InstallStatErrorStops | keadm/cmd/keadm/app/cmd/util/common_others.go:347-348 | a stat error other than "does not exist" is returned before any download or verification |
| InstallerProperties.PreludeStopsAtFirstFailure | keadm/cmd/keadm/app/cmd/util/common_others.go:299-308 | the directories are created in order until one fails: the stage errs exactly when the tarball directory's or /etc/kubeedge/'s creation failed; a tarball-directory failure stops before /etc/kubeedge/ is created; the error names the first directory that failed |
| InstallerProperties.InstallAbsentDownloads | keadm/cmd/keadm/app/cmd/util/common_others.go:349-352 | an absent tarball is downloaded right after the directory creations: retryDownload's actions follow them, and a retryDownload error is the install's result with nothing issued after it |
| InstallerProperties.AcquireAbsentIsRetry | keadm/cmd/keadm/app/cmd/util/common_others.go:349-352 | an absent tarball is acquired by retryDownload alone, with its result and actions |
| InstallerProperties.RetryErrors | keadm/cmd/keadm/app/cmd/util/common_others.go:107-132 | the download loop only fails with a command, checksum or "failed to download" error |
| InstallerProperties.AcquireErrors | keadm/cmd/keadm/app/cmd/util/common_others.go:319-353 | acquisition only fails with a stat, command, checksum or "failed to download" error |
| InstallerProperties.InstallResult | keadm/cmd/keadm/app/cmd/util/common_others.go:291-382 | the install succeeds exactly when every stage succeeds; a directory or acquisition error (stat, removal, retryDownload) is returned unchanged with no later stage issued; a unit-file error e gives exactly ServiceFileFailed(e), and only that stage gives ServiceFileFailed; otherwise the result is the binary placement's |
| InstallerProperties.InstallRedownloadsOnlyOnConfirm | keadm/cmd/keadm/app/cmd/util/common_others.go:320-346 | a present tarball is removed or downloaded again only when its checksum did not pass (an error counts as not passing) and the first answer is yes |
| InstallerProperties.AcquireKeepsTarball | keadm/cmd/keadm/app/cmd/util/common_others.go:320-346 | a present tarball whose checksum passes, or whose first answer is no, is kept and acquisition succeeds with only the checksum's actions |
| InstallerProperties.AcquireRedownloadsOnYes | keadm/cmd/keadm/app/cmd/util/common_others.go:320-339 | a present tarball whose checksum did not pass is, on a first answer of yes, removed; a failed removal is returned, otherwise retryDownload runs and its result is returned |
| InstallerProperties.AcquireOnArtifact | keadm/cmd/keadm/app/cmd/util/common_others.go:320-353 | getting the tarball in place issues only actions on this tarball |
| InstallerProperties.AfterAcquireNoTarballActions | keadm/cmd/keadm/app/cmd/util/common_others.go:355-378 | the unit-file download and the extraction never download or remove a tarball |
| InstallerProperties.InstallPlacesBinary | keadm/cmd/keadm/app/cmd/util/common_others.go:361-378 | a completed CloudCore or EdgeCore install ends by extracting in the tarball directory and copying the component's binary to /usr/local/bin |
| InstallerProperties.InstallUnitFileLocation | keadm/cmd/keadm/app/cmd/util/common_others.go:355-357 | every unit-file fetch of an install goes to /etc/kubeedge/, not the tarball path, from UnitFileRelease's line |
| InstallerProperties.InstallActionsSatisfy | keadm/cmd/keadm/app/cmd/util/common_others.go:291-382 | an install issues nothing but the actions of its stages in order (directories, acquisition, unit file, binary), so a property of every stage's actions holds of the whole install |
| InstallerProperties.PackageManagerExact | keadm/cmd/keadm/app/cmd/util/common_others.go:446-464 | a manager is picked exactly when the probe succeeded and its output ends with that manager's name (the three names exclude each other) |
| InstallerProperties.KillChoosesCommand | keadm/cmd/keadm/app/cmd/util/common_others.go:221-247 | for a process other than cloudcore the last action stops a unit exactly when systemd exists and a unit matched; "edgecore" is preferred; the unit file is removed unless stat says absent; otherwise pkill |
| InstallerProperties.LogAsWrittenOutsideLogDir | keadm/cmd/keadm/app/cmd/util/common_others.go:257-271 | without systemd, the launch Installer.RunEdgeCore issues after creating /var/log/kubeedge/ redirects to /etc/kubeedge/kubeedge/edge/edgecore.log, which is not inside the created directory |
| InstallerProperties.AsWrittenLogPath | keadm/cmd/keadm/app/cmd/util/common_others.go:271 | KubeEdgePath + "kubeedge/edge/" + "edgecore" + ".log" is /etc/kubeedge/kubeedge/edge/edgecore.log |
| InstallerProperties.LogInsideLogDir | keadm/cmd/keadm/app/cmd/util/common_others.go:283-285 | the announced log file lies inside /var/log/kubeedge/ |
| InstallerProperties.RunEdgeCoreLogsInLogDir | keadm/cmd/keadm/app/cmd/util/common_others.go:257-288 | without systemd, the corrected runEdgeCore (Installer.RunEdgeCoreIntended) launches edgecore logging inside the directory it created |
| LinuxHost.AskUntilAnswered | keadm/cmd/keadm/app/cmd/util/common_others.go:324-329 | the confirmation loop returns the first yes/no answer |
| LinuxHost.Host.Command | keadm/cmd/keadm/app/cmd/util/common_others.go:113-115 | issuing a command appends it to the trace and returns its error |
| LinuxHost.Host.HasSystemd | keadm/cmd/keadm/app/cmd/util/common_others.go:175-187 | returns and issues what Installer.HasSystemd says |
| LinuxHost.Host.UnitEnabled | keadm/cmd/keadm/app/cmd/util/common_others.go:190-203 | returns and issues what Installer.UnitEnabled says |
| LinuxHost.Host.CheckSum | keadm/cmd/keadm/app/cmd/util/common_others.go:134-171 | returns and issues what Installer.CheckSum says |
| LinuxHost.Host.DownloadRound | keadm/cmd/keadm/app/cmd/util/common_others.go:108-130 | one round of the loop: its actions and whether the loop goes on, as the loop's definition unfolds |
| LinuxHost.Host.RetryDownload | keadm/cmd/keadm/app/cmd/util/common_others.go:107-132 | the counted loop returns and issues what Installer.RetryDownload says (shaped as RetryAlternates states) |
| LinuxHost.Host.DownloadServiceFile | keadm/cmd/keadm/app/cmd/util/common_others.go:59-105 | returns and issues what Installer.DownloadServiceFile says |
| LinuxHost.Host.KillKubeEdgeBinary | keadm/cmd/keadm/app/cmd/util/common_others.go:221-247 | building the command by reassignment returns and issues what Installer.KillKubeEdgeBinary says |
| LinuxHost.Host.Acquire | keadm/cmd/keadm/app/cmd/util/common_others.go:319-353 | the present / absent / stat-error branches with the confirmation loop return and issue what Installer.Acquire says |
| LinuxHost.Host.PrepareDirectories | keadm/cmd/keadm/app/cmd/util/common_others.go:296-308 | returns the tarball directory and does the directory creations Installer.PreludeError describes |
| LinuxHost.Host.PlaceBinary | keadm/cmd/keadm/app/cmd/util/common_others.go:359-378 | extraction and copy as Installer.PlaceBinary says |
| LinuxHost.Host.InstallKubeEdge | keadm/cmd/keadm/app/cmd/util/common_others.go:291-381 | returns and issues what Installer.InstallKubeEdge says |
| WindowsProbe.IsKubeEdgeProcessRunning | keadm/cmd/keadm/app/cmd/util/common_windows.go:57-70 | running exactly when the manager connects and the service opens (existence, not run state); exactly one of running and error; the error is the connect or the open error |
| WindowsProbe.RunningModuleV2 | keadm/cmd/keadm/app/cmd/util/common_windows.go:72-77 | never CloudRunning; NoneRunning exactly when the "edgecore" service opens; EdgeRunning exactly when the probe fails |
| WindowsProbe.RunningModuleV2IgnoresOptions | keadm/cmd/keadm/app/cmd/util/common_windows.go:72 | the options argument never changes the answer |
| WindowsProbe.RunningModuleV2OnlyProbesEdgeCore | keadm/cmd/keadm/app/cmd/util/common_windows.go:73 | only the "edgecore" service is consulted |
| WindowsService.Install | keadm/cmd/keadm/app/cmd/common/service_windows.go:13-52 | InstallWindowsService on the registry; stated by ConnectFailureChangesNothing, InstallRejectsDuplicate, InstallSucceeds, InstallRollsBack and InstallTouchesOnlyItsName |
| WindowsService.Uninstall | keadm/cmd/keadm/app/cmd/common/service_windows.go:55-75 | UninstallWindowsService on the registry; stated by ConnectFailureChangesNothing, UninstallRejectsAbsent, UninstallFailures and InstallThenUninstall |
| WindowsService.ConnectFailureChangesNothing | keadm/cmd/keadm/app/cmd/common/service_windows.go:14-17 | a connect failure returns its error and leaves the registry as it was, for install and for uninstall |
| WindowsService.InstallRejectsDuplicate | keadm/cmd/keadm/app/cmd/common/service_windows.go:20-24 | an existing name fails with "service <name> already exists" and changes nothing |
| WindowsService.InstallSucceeds | keadm/cmd/keadm/app/cmd/common/service_windows.go:25-51 | install succeeds exactly when connected, the name is new, creation works and the event-log setup works or says "exists"; it then adds exactly the given service with automatic start and its arguments, keeping every other |
| WindowsService.InstallRollsBack | keadm/cmd/keadm/app/cmd/common/service_windows.go:44-50 | an event-log error without "exists" fails with "SetupEventLogSource() failed: <error>" and deletes the new service; if that deletion fails the service stays registered |
| WindowsService.InstallTouchesOnlyItsName | keadm/cmd/keadm/app/cmd/common/service_windows.go:13-52 | services and event-log sources of other names are never changed |
| WindowsService.UninstallRejectsAbsent | keadm/cmd/keadm/app/cmd/common/service_windows.go:61-64 | an unregistered name fails with "service <name> is not installed" and changes nothing |
| WindowsService.UninstallFailures | keadm/cmd/keadm/app/cmd/common/service_windows.go:66-74 | a delete failure changes nothing; a source-removal failure after the delete fails with the service gone and the source kept; success removes both |
| WindowsService.InstallThenUninstall | keadm/cmd/keadm/app/cmd/common/service_windows.go:13-75 | installing a new name and uninstalling it, with no faults, restores the registry exactly |
| WindowsService.ServiceControlManager.InstallWindowsService | keadm/cmd/keadm/app/cmd/common/service_windows.go:13-52 | the in-place install leaves the registry and returns the error WindowsService.Install describes |
| WindowsService.ServiceControlManager.UninstallWindowsService | keadm/cmd/keadm/app/cmd/common/service_windows.go:55-75 | the in-place uninstall leaves the registry and returns the error WindowsService.Uninstall describes |

## Left out

- Printing and logging (`fmt.Print*`, `klog`) are not modelled.
- Shell commands are abstract actions: their text, quoting and the URLs
  (`KubeEdgeDownloadURL`, `ServiceFileURLFormat`) are not modelled, nor is
  how a directory and a file name are joined.
- The SHA-512 computation, stat, file reads, `GetLatestVersion` and the
  cloudcore container probe are oracle inputs; semver pre-release and build
  tags are not modelled (versions are major.minor.patch, ordered
  lexicographically).
- `downloadRetryTimes` is defined outside the modelled files; the retry
  bound is the parameter `retries`. `RetryTimes` (the `wget -t` count) is
  part of the command text and not modelled.
- LinuxHost.Host.InstallKubeEdge: requires that some answer is yes or no;
  with only failing answers the source asks forever, which is not modelled.
- LinuxHost.Host.Acquire: same requirement on the answers, for the same reason.
- The Linux `RunningModule` probes go through the OS installer object
  (`DebOS`, `RpmOS`, `PacmanOS`), which is not part of this model; they are
  taken to be the `pidof` probe `IsKubeEdgeProcessRunning` of the same file.
- `runEdgeCore`, `GetPackageManager`, `GetOSInterface`, `RunningModule`,
  `RunningModuleV2` and `IsKubeEdgeProcessRunning` (Linux and Windows) are
  single decisions without loops or reassignment and are modelled as
  functions only. The Windows service operations are both functions on the
  registry and methods of class `WindowsService.ServiceControlManager`.
- InstallerProperties.CheckSumRemote: `GetStdOut` is defined outside the
  modelled files, so whether it trims the fetched text is not modelled; the
  clause about a final newline speaks of the value it returns, not of the
  remote file's bytes. `Installer.PackageManagerOf` reads the same value.
- A `ComponentType` of `Unsupported("cloudcore")` or `Unsupported("edgecore")`
  does not stand for any source value: the source's type strings are read by
  `KubeEdgeTypes.ParseComponentType`, which never builds one. Every
  operation treats all `Unsupported` values alike.
- Windows: `OpenService` failing for a reason other than the service being
  absent is not modelled (an open failure means "absent"); the fixed
  configuration fields (service type, start name, password, dependencies,
  delayed start), the event-log flags and the deferred `Close` and
  `Disconnect` calls are not modelled.
- Concurrent keadm runs on one host are not modelled.

## Findings

| source | as written | input that shows it | evidently intended | confidence | as-written member | corrected member |
|---|---|---|---|---|---|---|
| keadm/cmd/keadm/app/cmd/util/common_others.go:271 | without systemd, edgecore's output is redirected to KubeEdgePath + "kubeedge/edge/edgecore.log", i.e. /etc/kubeedge/kubeedge/edge/edgecore.log | any host without systemd: runEdgeCore creates /var/log/kubeedge/ (line 259) and announces /var/log/kubeedge/edgecore.log (line 283), but the redirect writes to a different directory that nothing creates (InstallerProperties.LogAsWrittenOutsideLogDir; the corrected launch is proved to log inside the created directory by InstallerProperties.RunEdgeCoreLogsInLogDir) | redirect to KubeEdgeLogPath + "edgecore.log" | medium, not executed | Installer.RunEdgeCore | Installer.RunEdgeCoreIntended |
