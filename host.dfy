/** The imperative side of the Linux installer: a host object that records
    every command issued, and the installer operations that work by issuing
    commands one after another (common_others.go). Each method is proved to
    issue exactly the actions, and to return exactly the result, that the
    matching function of module Installer describes. */
module LinuxHost {
  import opened KubeEdgeTypes
  import opened Text
  import opened Artifacts
  import opened HostEnv
  import I = Installer

  /** askForconfirm asked until it gives an answer: failed answers are
      skipped, the first yes or no decides. */
  method AskUntilAnswered(answers: seq<I.Answer>) returns (confirm: bool)
    requires I.FirstDecision(answers).Some?
    ensures Some(confirm) == I.FirstDecision(answers)
  {
    var k := 0;
    while k < |answers| && answers[k].AnswerError?
      invariant 0 <= k <= |answers|
      invariant forall j :: 0 <= j < k ==> answers[j].AnswerError?
      decreases |answers| - k
    {
      k := k + 1;
    }
    if k == |answers| {
      assert false;
    }
    confirm := answers[k].Yes?;
  }

  lemma AppendAssoc(a: seq<Action>, b: seq<Action>, c: seq<Action>)
    ensures a + b + c == a + (b + c)
  {
  }

  /** The machine keadm runs on. `env` is how it answers; `trace` is every
      action issued so far, oldest first. */
  class Host {
    const env: Env
    var trace: seq<Action>

    constructor(env: Env)
      ensures this.env == env && trace == []
    {
      this.env := env;
      trace := [];
    }

    /** Issue one action and return the host's reply. */
    method Exec(a: Action) returns (reply: Reply)
      modifies this
      ensures reply == env.run(old(trace), a)
      ensures trace == old(trace) + [a]
    {
      reply := env.run(trace, a);
      trace := trace + [a];
    }

    /** NewCommand(...).Exec(): issue one action, keep only its error. */
    method Command(a: Action) returns (err: Option<Error>)
      modifies this
      ensures err == Finish(env, old(trace), a).value
      ensures trace == old(trace) + [a]
    {
      var reply := Exec(a);
      err := if reply.err.Some? then Some(CommandFailed(reply.err.value)) else None;
    }

    /** HasSystemd: `file /sbin/init`, then the directory test on
        /run/systemd/system. */
    method HasSystemd() returns (b: bool)
      modifies this
      ensures b == I.HasSystemd(env, old(trace)).value
      ensures trace == old(trace) + I.HasSystemd(env, old(trace)).actions
    {
      var reply := Exec(ProbeInit);
      if reply.err.None? {
        return true;
      }
      var fi := env.stat(trace, I.SYSTEMD_BOOT_PATH);
      if !fi.Present? {
        return false;
      }
      return fi.isDir;
    }

    /** isEdgeCoreServiceRunning. */
    method UnitEnabled(pattern: string) returns (p: Probe)
      modifies this
      ensures p == I.UnitEnabled(env, old(trace), pattern).value
      ensures trace == old(trace) + I.UnitEnabled(env, old(trace), pattern).actions
    {
      var reply := Exec(ListEnabledUnits(pattern));
      p := I.ClassifyExit(reply);
    }

    /** checkSum: digest of the tarball against the local sidecar, or the
        remote checksum when there is no sidecar. */
    method CheckSum(f: I.Fetch) returns (r: Result<bool, Error>)
      modifies this
      ensures r == I.CheckSum(env, old(trace), f).value
      ensures trace == old(trace) + I.CheckSum(env, old(trace), f).actions
    {
      var digest := env.sha512(trace, Path(f.dir, f.file));
      if digest.Err? {
        return Err(DigestFailed(f.file, digest.error));
      }
      if env.stat(trace, Path(f.dir, f.checksumFile)).Present? {
        var content := env.read(trace, Path(f.dir, f.checksumFile));
        if content.Err? {
          return Err(ReadFailed(content.error));
        }
        var checksum := StripNewlines(content.value);
        return Ok(checksum == digest.value);
      }
      var reply := Exec(FetchChecksum(f.version, f.checksumFile));
      if reply.err.Some? {
        return Err(CommandFailed(reply.err.value));
      }
      return Ok(reply.stdout == digest.value);
    }

    /** One round of retryDownload: download, verify and, on a mismatch,
        remove the tarball. `again` says the loop goes on to round `k + 1`;
        otherwise `err` is the loop's result. */
    method DownloadRound(f: I.Fetch, n: nat, k: nat) returns (again: bool, err: Option<Error>, ghost step: seq<Action>)
      requires k < n
      modifies this
      ensures trace == old(trace) + step
      ensures again ==> err.None?
      ensures again ==> I.RetryFrom(env, old(trace), f, n, k)
                        == Run(I.RetryFrom(env, trace, f, n, k + 1).value,
                               step + I.RetryFrom(env, trace, f, n, k + 1).actions)
      ensures !again ==> I.RetryFrom(env, old(trace), f, n, k) == Run(err, step)
    {
      var download := FetchTarball(f.dir, f.version, f.file);
      err := Command(download);
      step := [download];
      if err.Some? {
        return false, err, step;
      }
      ghost var cs := I.CheckSum(env, old(trace) + [download], f);
      var success := CheckSum(f);
      step := [download] + cs.actions;
      if success.Err? {
        return false, Some(success.error), step;
      }
      if success.value {
        return false, None, step;
      }
      var remove := RemoveFile(Path(f.dir, f.file));
      err := Command(remove);
      step := [download] + cs.actions + [remove];
      again := err.None?;
    }

    /** retryDownload: at most `retries` rounds of download, verify and, on
        a mismatch, remove. */
    method RetryDownload(f: I.Fetch, retries: nat) returns (err: Option<Error>)
      modifies this
      ensures err == I.RetryDownload(env, old(trace), f, retries).value
      ensures trace == old(trace) + I.RetryDownload(env, old(trace), f, retries).actions
    {
      ghost var spec := I.RetryDownload(env, trace, f, retries);
      ghost var done: seq<Action> := [];
      var try := 0;
      while try < retries
        invariant 0 <= try <= retries
        invariant trace == old(trace) + done
        invariant spec.value == I.RetryFrom(env, trace, f, retries, try).value
        invariant spec.actions == done + I.RetryFrom(env, trace, f, retries, try).actions
        decreases retries - try
      {
        var again;
        ghost var step;
        again, err, step := DownloadRound(f, retries, try);
        AppendAssoc(old(trace), done, step);
        if !again {
          assert spec.actions == done + step;
          return;
        }
        AppendAssoc(done, step, I.RetryFrom(env, trace, f, retries, try + 1).actions);
        try := try + 1;
        done := done + step;
      }
      assert spec.actions == done + [];
      return Some(DownloadFailed(f.file));
    }

    /** downloadServiceFile. */
    method DownloadServiceFile(ct: ComponentType, version: Version, storeDir: string) returns (err: Option<Error>)
      modifies this
      ensures err == I.DownloadServiceFile(env, old(trace), ct, version, storeDir).value
      ensures trace == old(trace) + I.DownloadServiceFile(env, old(trace), ct, version, storeDir).actions
    {
      var systemd := HasSystemd();
      if !systemd {
        return None;
      }
      var name: string;
      match ct {
        case CloudCore => name := I.CLOUD_SERVICE_FILE;
        case EdgeCore => name := I.EDGE_SERVICE_FILE;
        case Unsupported(_) => return Some(ComponentNotSupported(ct));
      }
      var release := I.UnitFileRelease(version, env.latest);
      match env.stat(trace, Path(storeDir, name)) {
        case Present(_) => return None;
        case Unreadable(msg) => return Some(StatFailed(msg));
        case Absent =>
          err := Command(FetchServiceFile(storeDir, release, name));
      }
    }

    /** KillKubeEdgeBinary: choose the command by successive reassignment,
        then run it. */
    method KillKubeEdgeBinary(proc: string) returns (err: Option<Error>)
      modifies this
      ensures err == I.KillKubeEdgeBinary(env, old(trace), proc).value
      ensures trace == old(trace) + I.KillKubeEdgeBinary(env, old(trace), proc).actions
    {
      var command: Action;
      if proc == "cloudcore" {
        command := Pkill(proc);
      } else {
        var systemdExist := HasSystemd();
        var serviceName := "";
        var edge := UnitEnabled("edge");
        if edge.err.None? && edge.running {
          serviceName := "edge";
        }
        assert trace == old(trace) + [ProbeInit, ListEnabledUnits("edge")];
        var edgecore := UnitEnabled("edgecore");
        assert trace == old(trace) + [ProbeInit, ListEnabledUnits("edge"), ListEnabledUnits("edgecore")];
        if edgecore.err.None? && edgecore.running {
          serviceName := "edgecore";
        }
        assert serviceName != "" <==> I.KillUnit(edge, edgecore).Some?;
        assert serviceName != "" ==> Some(serviceName) == I.KillUnit(edge, edgecore);
        if systemdExist && serviceName != "" {
          var removeUnitFile := !env.stat(trace, I.UnitFilePath(serviceName)).Absent?;
          command := StopUnit(serviceName, removeUnitFile);
        } else {
          command := Pkill(proc);
        }
      }
      ghost var probes := trace;
      err := Command(command);
      assert trace == probes + [command];
    }

    /** The tarball part of installKubeEdge: verify a present tarball and,
        when it fails and the user confirms, remove and download it again;
        download an absent one; give up on a stat error. */
    method Acquire(f: I.Fetch, answers: seq<I.Answer>, retries: nat) returns (err: Option<Error>)
      requires I.FirstDecision(answers).Some?
      modifies this
      ensures err == I.Acquire(env, old(trace), f, answers, retries).value
      ensures trace == old(trace) + I.Acquire(env, old(trace), f, answers, retries).actions
    {
      match env.stat(trace, Path(f.dir, f.file)) {
        case Unreadable(msg) =>
          return Some(StatFailed(msg));
        case Absent =>
          err := RetryDownload(f, retries);
        case Present(_) =>
          var success := CheckSum(f);
          if success.Ok? && success.value {
            return None;
          }
          var confirm := AskUntilAnswered(answers);
          if !confirm {
            return None;
          }
          ghost var mid := trace;
          var remove := RemoveFile(Path(f.dir, f.file));
          err := Command(remove);
          if err.Some? {
            return;
          }
          err := RetryDownload(f, retries);
          assert trace == mid + [remove] + I.RetryDownload(env, mid + [remove], f, retries).actions;
      }
    }

    /** The directory creations installKubeEdge starts with; returns the
        tarball directory it will use. */
    method PrepareDirectories(opts: InstallOptions) returns (tarballPath: string, err: Option<Error>)
      modifies this
      ensures tarballPath == I.TarballDir(opts)
      ensures err == I.PreludeError(env, old(trace), opts).value
      ensures trace == old(trace) + I.PreludeError(env, old(trace), opts).actions
    {
      tarballPath := opts.tarballPath;
      if tarballPath == "" {
        tarballPath := I.KUBE_EDGE_PATH;
      } else {
        var mkErr := Command(MakeDirs(tarballPath));
        if mkErr.Some? {
          return tarballPath, Some(MkdirFailed(tarballPath));
        }
      }
      ghost var before := trace;
      var mkErr := Command(MakeDirs(I.KUBE_EDGE_PATH));
      assert before == old(trace) + I.Prelude(opts)[..|I.Prelude(opts)| - 1];
      assert trace == old(trace) + I.Prelude(opts);
      if mkErr.Some? {
        return tarballPath, Some(MkdirFailed(I.KUBE_EDGE_PATH));
      }
      err := None;
    }

    /** Untar the release and copy the component's binary to /usr/local/bin. */
    method PlaceBinary(ct: ComponentType, f: I.Fetch, dirname: string) returns (err: Option<Error>)
      modifies this
      ensures err == I.PlaceBinary(env, old(trace), ct, f, dirname).value
      ensures trace == old(trace) + I.PlaceBinary(env, old(trace), ct, f, dirname).actions
    {
      var source := I.BinarySource(ct, dirname);
      if source.Some? {
        err := Command(ExtractAndCopy(f.dir, f.file, source.value, I.KUBE_EDGE_USR_BIN_PATH));
      } else {
        err := None;
      }
    }

    /** installKubeEdge. */
    method InstallKubeEdge(opts: InstallOptions, version: Version, answers: seq<I.Answer>, retries: nat)
      returns (err: Option<Error>)
      requires I.FirstDecision(answers).Some?
      modifies this
      ensures err == I.InstallKubeEdge(env, old(trace), opts, version, answers, retries).value
      ensures trace == old(trace) + I.InstallKubeEdge(env, old(trace), opts, version, answers, retries).actions
    {
      ghost var spec := I.InstallKubeEdge(env, trace, opts, version, answers, retries);
      ghost var pre := I.PreludeError(env, trace, opts).actions;
      var tarballPath;
      tarballPath, err := PrepareDirectories(opts);
      if err.Some? {
        return;
      }
      var dirname := DirName(version, env.arch);
      var f := I.Fetch(TarballName(version, env.arch), ChecksumName(version, env.arch), version, tarballPath);
      ghost var acq := I.Acquire(env, trace, f, answers, retries).actions;
      err := Acquire(f, answers, retries);
      AppendAssoc(old(trace), pre, acq);
      if err.Some? {
        return;
      }
      ghost var svc := I.DownloadServiceFile(env, trace, opts.componentType, version, I.KUBE_EDGE_PATH).actions;
      var svcErr := DownloadServiceFile(opts.componentType, version, I.KUBE_EDGE_PATH);
      AppendAssoc(old(trace), pre + acq, svc);
      if svcErr.Some? {
        return Some(ServiceFileFailed(svcErr.value));
      }
      ghost var place := I.PlaceBinary(env, trace, opts.componentType, f, dirname).actions;
      err := PlaceBinary(opts.componentType, f, dirname);
      AppendAssoc(old(trace), pre + acq + svc, place);
    }
  }
}
