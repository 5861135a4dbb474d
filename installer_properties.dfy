/** What the Linux installer guarantees, proved about the functions of
    module Installer for every host behaviour. */
module InstallerProperties {
  import opened KubeEdgeTypes
  import opened Text
  import opened Artifacts
  import opened HostEnv
  import opened Installer

  // ---------------------------------------------------------------------
  // checkSum

  /** checkSum only ever issues the remote checksum fetch, and its errors are
      never the "failed to download" error of the retry loop. */
  lemma CheckSumActions(env: Env, h: seq<Action>, f: Fetch)
    ensures var r := CheckSum(env, h, f);
      && (r.actions == [] || r.actions == [FetchChecksum(f.version, f.checksumFile)])
      && (r.value.Err? ==> !r.value.error.DownloadFailed?)
  {
  }

  /** A local sidecar decides alone, without any host command: the verdict
      is whether its text with every newline removed is the digest. A
      sidecar holding the digest and a final newline therefore matches. */
  lemma CheckSumLocalSidecar(env: Env, h: seq<Action>, f: Fetch, digest: string, content: string)
    requires env.sha512(h, Path(f.dir, f.file)) == Ok(digest)
    requires env.stat(h, Path(f.dir, f.checksumFile)).Present?
    requires env.read(h, Path(f.dir, f.checksumFile)) == Ok(content)
    ensures CheckSum(env, h, f).actions == []
    ensures CheckSum(env, h, f).value == Ok(StripNewlines(content) == digest)
    ensures content == digest + "\n" && '\n' !in digest ==> CheckSum(env, h, f).value == Ok(true)
    ensures '\n' !in content ==> (CheckSum(env, h, f).value == Ok(true) <==> content == digest)
  {
    if content == digest + "\n" && '\n' !in digest {
      TrailingNewlineIgnored(digest);
    }
    StripNewlinesFixes(content);
  }

  /** Without a local sidecar the remote checksum is fetched once and must
      equal the digest exactly: unlike the sidecar, a final newline in the
      fetched text makes the check fail. */
  lemma CheckSumRemote(env: Env, h: seq<Action>, f: Fetch, digest: string)
    requires env.sha512(h, Path(f.dir, f.file)) == Ok(digest)
    requires !env.stat(h, Path(f.dir, f.checksumFile)).Present?
    ensures CheckSum(env, h, f).actions == [FetchChecksum(f.version, f.checksumFile)]
    ensures env.run(h, FetchChecksum(f.version, f.checksumFile)).err.None? ==>
      CheckSum(env, h, f).value == Ok(env.run(h, FetchChecksum(f.version, f.checksumFile)).stdout == digest)
    ensures env.run(h, FetchChecksum(f.version, f.checksumFile)) == Reply(0, digest + "\n", None) ==>
      CheckSum(env, h, f).value == Ok(false)
  {
    var reply := env.run(h, FetchChecksum(f.version, f.checksumFile));
    if reply == Reply(0, digest + "\n", None) {
      assert |reply.stdout| != |digest|;
    }
  }

  /** checkSum's three errors: the digest cannot be computed, the local
      sidecar cannot be read, or the remote checksum cannot be fetched. Each
      is returned as that error, and nothing else is ever an error. */
  lemma CheckSumErrors(env: Env, h: seq<Action>, f: Fetch)
    ensures var r := CheckSum(env, h, f);
      var digest := env.sha512(h, Path(f.dir, f.file));
      var sidecar := Path(f.dir, f.checksumFile);
      var fetch := FetchChecksum(f.version, f.checksumFile);
      && (digest.Err? ==> r == Run(Err(DigestFailed(f.file, digest.error)), []))
      && (digest.Ok? && env.stat(h, sidecar).Present? && env.read(h, sidecar).Err? ==>
            r == Run(Err(ReadFailed(env.read(h, sidecar).error)), []))
      && (digest.Ok? && !env.stat(h, sidecar).Present? && env.run(h, fetch).err.Some? ==>
            r == Run(Err(CommandFailed(env.run(h, fetch).err.value)), [fetch]))
      && (r.value.Err? <==>
            || digest.Err?
            || (env.stat(h, sidecar).Present? && env.read(h, sidecar).Err?)
            || (!env.stat(h, sidecar).Present? && env.run(h, fetch).err.Some?))
      && (r.value.Err? ==> r.value.error.DigestFailed? || r.value.error.ReadFailed? || r.value.error.CommandFailed?)
  {
  }

  // ---------------------------------------------------------------------
  // retryDownload

  /** The downloads and removals of the tarball, in the order issued. */
  datatype Step = Download | Removal

  function Steps(acts: seq<Action>, f: Fetch): seq<Step> {
    if acts == [] then []
    else
      (if acts[0] == FetchTarball(f.dir, f.version, f.file) then [Download]
       else if acts[0] == RemoveFile(Path(f.dir, f.file)) then [Removal]
       else [])
      + Steps(acts[1..], f)
  }

  /** `c` rounds of "download, then remove". */
  function Cycles(c: nat): seq<Step> {
    if c == 0 then [] else [Download, Removal] + Cycles(c - 1)
  }

  lemma {:induction false} StepsAppend(a: seq<Action>, b: seq<Action>, f: Fetch)
    ensures Steps(a + b, f) == Steps(a, f) + Steps(b, f)
  {
    if a == [] {
      assert a + b == b;
    } else {
      assert (a + b)[1..] == a[1..] + b;
      StepsAppend(a[1..], b, f);
    }
  }

  /** The step sequence of an attempt that stopped on an error: either right
      after its download, or right after its removal. */
  predicate StopsDuring(steps: seq<Step>, c: nat) {
    steps == Cycles(c) + [Download] || steps == Cycles(c + 1)
  }

  /** The shape of a retryDownload run with `budget` attempts left: it
      succeeds right after a download whose checksum matched; it reports
      "failed to download" only after all attempts, each of which removed
      its tarball; any other error stops it during an attempt. */
  predicate Alternates(r: Run<Option<Error>>, f: Fetch, budget: nat) {
    && (r.value == None ==>
          exists c :: 0 <= c < budget && Steps(r.actions, f) == Cycles(c) + [Download])
    && (r.value == Some(DownloadFailed(f.file)) ==> Steps(r.actions, f) == Cycles(budget))
    && (r.value.Some? && r.value != Some(DownloadFailed(f.file)) ==>
          exists c :: 0 <= c < budget && StopsDuring(Steps(r.actions, f), c))
  }

  /** One more completed round in front keeps the shape, with one more
      attempt in the budget. */
  lemma AlternatesPrepend(r: Run<Option<Error>>, rest: Run<Option<Error>>, f: Fetch, budget: nat)
    requires Alternates(rest, f, budget)
    requires r.value == rest.value
    requires Steps(r.actions, f) == [Download, Removal] + Steps(rest.actions, f)
    ensures Alternates(r, f, budget + 1)
  {
    if rest.value == None {
      var c :| 0 <= c < budget && Steps(rest.actions, f) == Cycles(c) + [Download];
      assert Cycles(c + 1) + [Download] == [Download, Removal] + (Cycles(c) + [Download]);
    } else if rest.value == Some(DownloadFailed(f.file)) {
      assert Cycles(budget + 1) == [Download, Removal] + Cycles(budget);
    } else {
      var c :| 0 <= c < budget && StopsDuring(Steps(rest.actions, f), c);
      assert Cycles(c + 1) + [Download] == [Download, Removal] + (Cycles(c) + [Download]);
      assert Cycles(c + 2) == [Download, Removal] + Cycles(c + 1);
      assert StopsDuring(Steps(r.actions, f), c + 1);
    }
  }

  /** The steps of one attempt up to its checksum, and up to its removal. */
  lemma AttemptSteps(f: Fetch, csActions: seq<Action>)
    requires csActions == [] || csActions == [FetchChecksum(f.version, f.checksumFile)]
    ensures Steps([FetchTarball(f.dir, f.version, f.file)] + csActions, f) == Cycles(0) + [Download]
    ensures Steps([FetchTarball(f.dir, f.version, f.file)] + csActions + [RemoveFile(Path(f.dir, f.file))], f)
            == Cycles(1)
  {
    var download := FetchTarball(f.dir, f.version, f.file);
    var remove := RemoveFile(Path(f.dir, f.file));
    assert Steps([download], f) == [Download];
    assert Steps([remove], f) == [Removal];
    assert Steps(csActions, f) == [];
    StepsAppend([download], csActions, f);
    StepsAppend([download] + csActions, [remove], f);
  }

  /** retryDownload alternates downloads and removals, starting with a
      download (see Alternates). */
  lemma {:induction false} RetryAlternates(env: Env, h: seq<Action>, f: Fetch, n: nat, k: nat)
    requires k <= n
    decreases n - k
    ensures Alternates(RetryFrom(env, h, f, n, k), f, n - k)
  {
    if k < n {
      var download := FetchTarball(f.dir, f.version, f.file);
      var remove := RemoveFile(Path(f.dir, f.file));
      var r := RetryFrom(env, h, f, n, k);
      if Finish(env, h, download).value.Some? {
        assert Alternates(r, f, n - k) by { AttemptStopsAtDownload(env, h, f, n, k); }
      } else {
        var cs := CheckSum(env, h + [download], f);
        if cs.value != Ok(false) {
          assert Alternates(r, f, n - k) by { AttemptStopsAfterChecksum(env, h, f, n, k); }
        } else if Finish(env, h + [download] + cs.actions, remove).value.Some? {
          assert Alternates(r, f, n - k) by { AttemptStopsAtRemoval(env, h, f, n, k); }
        } else {
          var rest := RetryFrom(env, h + [download] + cs.actions + [remove], f, n, k + 1);
          RetryAlternates(env, h + [download] + cs.actions + [remove], f, n, k + 1);
          assert Steps(r.actions, f) == [Download, Removal] + Steps(rest.actions, f) && r.value == rest.value by {
            RoundSteps(env, h, f, n, k);
          }
          AlternatesPrepend(r, rest, f, n - (k + 1));
        }
      }
    }
  }

  /** Every attempt from `k` to `n` downloads, finds a mismatching
      checksum and removes the tarball without error. */
  ghost predicate AllRoundsMismatch(env: Env, h: seq<Action>, f: Fetch, n: nat, k: nat)
    decreases n - k
  {
    k >= n ||
      var download := FetchTarball(f.dir, f.version, f.file);
      var cs := CheckSum(env, h + [download], f);
      var remove := RemoveFile(Path(f.dir, f.file));
      && Finish(env, h, download).value.None?
      && cs.value == Ok(false)
      && Finish(env, h + [download] + cs.actions, remove).value.None?
      && AllRoundsMismatch(env, h + [download] + cs.actions + [remove], f, n, k + 1)
  }

  /** retryDownload reports "failed to download" exactly when every one of
      its attempts mismatched and was removed; no error of a command or of
      checkSum is ever mistaken for it. */
  lemma {:induction false} RetryFailsExactlyWhenAllMismatch(env: Env, h: seq<Action>, f: Fetch, n: nat, k: nat)
    requires k <= n
    decreases n - k
    ensures RetryFrom(env, h, f, n, k).value == Some(DownloadFailed(f.file)) <==> AllRoundsMismatch(env, h, f, n, k)
  {
    if k < n {
      var download := FetchTarball(f.dir, f.version, f.file);
      var remove := RemoveFile(Path(f.dir, f.file));
      if Finish(env, h, download).value.Some? {
        AttemptStopsAtDownload(env, h, f, n, k);
      } else {
        var cs := CheckSum(env, h + [download], f);
        if cs.value != Ok(false) {
          AttemptStopsAfterChecksum(env, h, f, n, k);
          CheckSumErrors(env, h + [download], f);
        } else if Finish(env, h + [download] + cs.actions, remove).value.Some? {
          AttemptStopsAtRemoval(env, h, f, n, k);
        } else {
          RetryFailsExactlyWhenAllMismatch(env, h + [download] + cs.actions + [remove], f, n, k + 1);
          RoundSteps(env, h, f, n, k);
        }
      }
    }
  }

  /** The value and steps of a run that completed its first round. */
  lemma RoundSteps(env: Env, h: seq<Action>, f: Fetch, n: nat, k: nat)
    requires k < n
    requires Finish(env, h, FetchTarball(f.dir, f.version, f.file)).value.None?
    requires CheckSum(env, h + [FetchTarball(f.dir, f.version, f.file)], f).value == Ok(false)
    requires Finish(env, h + [FetchTarball(f.dir, f.version, f.file)]
                            + CheckSum(env, h + [FetchTarball(f.dir, f.version, f.file)], f).actions,
                    RemoveFile(Path(f.dir, f.file))).value.None?
    ensures var rest := RetryFrom(env, h + [FetchTarball(f.dir, f.version, f.file)]
                                        + CheckSum(env, h + [FetchTarball(f.dir, f.version, f.file)], f).actions
                                        + [RemoveFile(Path(f.dir, f.file))], f, n, k + 1);
      && RetryFrom(env, h, f, n, k)
         == Run(rest.value, [FetchTarball(f.dir, f.version, f.file)]
                            + CheckSum(env, h + [FetchTarball(f.dir, f.version, f.file)], f).actions
                            + [RemoveFile(Path(f.dir, f.file))] + rest.actions)
      && Steps(RetryFrom(env, h, f, n, k).actions, f) == [Download, Removal] + Steps(rest.actions, f)
  {
    var download := FetchTarball(f.dir, f.version, f.file);
    var cs := CheckSum(env, h + [download], f);
    CheckSumActions(env, h + [download], f);
    RoundSpelledOut(f, cs.actions, RetryFrom(env, h + [download] + cs.actions + [RemoveFile(Path(f.dir, f.file))], f, n, k + 1).actions);
  }

  /** The steps of a full round followed by the rest of a run. */
  lemma RoundSpelledOut(f: Fetch, csActions: seq<Action>, rest: seq<Action>)
    requires csActions == [] || csActions == [FetchChecksum(f.version, f.checksumFile)]
    ensures Steps([FetchTarball(f.dir, f.version, f.file)] + csActions + [RemoveFile(Path(f.dir, f.file))] + rest, f)
            == [Download, Removal] + Steps(rest, f)
  {
    AttemptSteps(f, csActions);
    StepsAppend([FetchTarball(f.dir, f.version, f.file)] + csActions + [RemoveFile(Path(f.dir, f.file))], rest, f);
  }

  /** An attempt whose download failed ends the run right there. */
  lemma AttemptStopsAtDownload(env: Env, h: seq<Action>, f: Fetch, n: nat, k: nat)
    requires k < n
    requires Finish(env, h, FetchTarball(f.dir, f.version, f.file)).value.Some?
    ensures RetryFrom(env, h, f, n, k) == Run(Finish(env, h, FetchTarball(f.dir, f.version, f.file)).value,
                                              [FetchTarball(f.dir, f.version, f.file)])
    ensures Alternates(RetryFrom(env, h, f, n, k), f, n - k)
  {
    var download := FetchTarball(f.dir, f.version, f.file);
    var r := RetryFrom(env, h, f, n, k);
    assert r == Finish(env, h, download);
    assert Steps(r.actions, f) == Cycles(0) + [Download] by {
      AttemptSteps(f, []);
      assert [download] + [] == [download];
    }
    assert StopsDuring(Steps(r.actions, f), 0);
  }

  /** An attempt whose checksum did not match but whose removal failed ends
      the run right after the removal. */
  lemma AttemptStopsAtRemoval(env: Env, h: seq<Action>, f: Fetch, n: nat, k: nat)
    requires k < n
    requires Finish(env, h, FetchTarball(f.dir, f.version, f.file)).value.None?
    requires CheckSum(env, h + [FetchTarball(f.dir, f.version, f.file)], f).value == Ok(false)
    requires Finish(env, h + [FetchTarball(f.dir, f.version, f.file)]
                            + CheckSum(env, h + [FetchTarball(f.dir, f.version, f.file)], f).actions,
                    RemoveFile(Path(f.dir, f.file))).value.Some?
    ensures var download := FetchTarball(f.dir, f.version, f.file);
      var cs := CheckSum(env, h + [download], f);
      var remove := RemoveFile(Path(f.dir, f.file));
      RetryFrom(env, h, f, n, k) == Run(Finish(env, h + [download] + cs.actions, remove).value,
                                        [download] + cs.actions + [remove])
    ensures Alternates(RetryFrom(env, h, f, n, k), f, n - k)
  {
    var download := FetchTarball(f.dir, f.version, f.file);
    var remove := RemoveFile(Path(f.dir, f.file));
    var cs := CheckSum(env, h + [download], f);
    CheckSumActions(env, h + [download], f);
    AttemptSteps(f, cs.actions);
    var r := RetryFrom(env, h, f, n, k);
    assert r.actions == [download] + cs.actions + [remove];
    assert StopsDuring(Steps(r.actions, f), 0);
  }

  /** An attempt whose download succeeded and whose checksum passed or
      failed with an error ends the run right after the checksum. */
  lemma AttemptStopsAfterChecksum(env: Env, h: seq<Action>, f: Fetch, n: nat, k: nat)
    requires k < n
    requires Finish(env, h, FetchTarball(f.dir, f.version, f.file)).value.None?
    requires CheckSum(env, h + [FetchTarball(f.dir, f.version, f.file)], f).value != Ok(false)
    ensures var download := FetchTarball(f.dir, f.version, f.file);
      var cs := CheckSum(env, h + [download], f);
      var r := RetryFrom(env, h, f, n, k);
      && r.actions == [download] + cs.actions
      && (cs.value == Ok(true) ==> r.value == None)
      && (cs.value.Err? ==> r.value == Some(cs.value.error))
    ensures Alternates(RetryFrom(env, h, f, n, k), f, n - k)
  {
    var download := FetchTarball(f.dir, f.version, f.file);
    var cs := CheckSum(env, h + [download], f);
    CheckSumActions(env, h + [download], f);
    AttemptSteps(f, cs.actions);
    var r := RetryFrom(env, h, f, n, k);
    assert r.actions == [download] + cs.actions;
    assert StopsDuring(Steps(r.actions, f), 0);
  }

  /** Every action of s satisfies P. */
  ghost predicate AllSatisfy(P: Action -> bool, s: seq<Action>) {
    forall a :: a in s ==> P(a)
  }

  /** The only host actions of retryDownload are on this artifact: its
      download, its remote checksum and its removal. */
  predicate OnArtifact(a: Action, f: Fetch) {
    || a == FetchTarball(f.dir, f.version, f.file)
    || a == FetchChecksum(f.version, f.checksumFile)
    || a == RemoveFile(Path(f.dir, f.file))
  }

  lemma {:induction false} RetryOnlyTouchesArtifact(env: Env, h: seq<Action>, f: Fetch, n: nat, k: nat)
    requires k <= n
    decreases n - k
    ensures forall a :: a in RetryFrom(env, h, f, n, k).actions ==> OnArtifact(a, f)
  {
    if k < n {
      var download := FetchTarball(f.dir, f.version, f.file);
      if Finish(env, h, download).value.None? {
        var cs := CheckSum(env, h + [download], f);
        CheckSumActions(env, h + [download], f);
        if cs.value == Ok(false) {
          var remove := RemoveFile(Path(f.dir, f.file));
          if Finish(env, h + [download] + cs.actions, remove).value.None? {
            RetryOnlyTouchesArtifact(env, h + [download] + cs.actions + [remove], f, n, k + 1);
          }
        }
      }
    }
  }

  // ---------------------------------------------------------------------
  // downloadServiceFile

  /** Without systemd nothing is fetched and nothing fails; with it, the
      unit file is fetched at most once, into the store directory, from the
      release line chosen by UnitFileRelease, and only when stat says it is
      absent. */
  lemma ServiceFileFetchedAtMostOnce(env: Env, h: seq<Action>, ct: ComponentType, version: Version, storeDir: string)
    ensures var r := DownloadServiceFile(env, h, ct, version, storeDir);
      && (!HasSystemd(env, h).value ==> r == Run(None, [ProbeInit]))
      && (r.actions == [ProbeInit]
          || (&& ServiceFileName(ct).Ok?
              && env.stat(h + [ProbeInit], Path(storeDir, ServiceFileName(ct).value)) == Absent
              && r.actions == [ProbeInit, FetchServiceFile(storeDir, UnitFileRelease(version, env.latest),
                                                           ComponentName(ct) + ".service")]))
      && (HasSystemd(env, h).value && ct.Unsupported? ==> r.value == Some(ComponentNotSupported(ct)))
      && (HasSystemd(env, h).value && ServiceFileName(ct).Ok? ==>
            var info := env.stat(h + [ProbeInit], Path(storeDir, ServiceFileName(ct).value));
            var fetch := FetchServiceFile(storeDir, UnitFileRelease(version, env.latest), ServiceFileName(ct).value);
            && (info.Present? ==> r == Run(None, [ProbeInit]))
            && (info.Unreadable? ==> r == Run(Some(StatFailed(info.msg)), [ProbeInit]))
            && (info.Absent? ==>
                  && r.actions == [ProbeInit, fetch]
                  && (r.value.Some? <==> env.run(h + [ProbeInit], fetch).err.Some?)
                  && (r.value.Some? ==> r.value == Some(CommandFailed(env.run(h + [ProbeInit], fetch).err.value)))))
  {
  }

  // ---------------------------------------------------------------------
  // installKubeEdge

  /** The install starts by creating the tarball directory (when one is
      given) and /etc/kubeedge/, and stops with that error when one fails. */
  lemma InstallStartsWithDirectories(env: Env, h: seq<Action>, opts: InstallOptions, version: Version,
                                     answers: seq<Answer>, retries: nat)
    requires FirstDecision(answers).Some?
    ensures var r := InstallKubeEdge(env, h, opts, version, answers, retries);
      && |r.actions| >= 1
      && r.actions[0] == MakeDirs(if opts.tarballPath == "" then KUBE_EDGE_PATH else opts.tarballPath)
      && (PreludeError(env, h, opts).value.Some? ==> r == PreludeError(env, h, opts))
  {
    var pre := PreludeError(env, h, opts);
    assert pre.actions[0] == MakeDirs(if opts.tarballPath == "" then KUBE_EDGE_PATH else opts.tarballPath);
  }

  /** The directories are created in order until one fails: the result is
      an error exactly when some creation issued failed, and the error names
      the first directory that could not be created. */
  lemma PreludeStopsAtFirstFailure(env: Env, h: seq<Action>, opts: InstallOptions)
    ensures var r := PreludeError(env, h, opts);
      var tarballFails := opts.tarballPath != "" && env.run(h, MakeDirs(opts.tarballPath)).err.Some?;
      var etcFails := env.run(h + Prelude(opts)[..|Prelude(opts)| - 1], MakeDirs(KUBE_EDGE_PATH)).err.Some?;
      && (r.value.Some? <==> tarballFails || etcFails)
      && (tarballFails ==> r == Run(Some(MkdirFailed(opts.tarballPath)), [MakeDirs(opts.tarballPath)]))
      && (!tarballFails && etcFails ==> r == Run(Some(MkdirFailed(KUBE_EDGE_PATH)), Prelude(opts)))
      && (!tarballFails && !etcFails ==> r == Run(None, Prelude(opts)))
  {
  }

  /** A stat error on the tarball (other than "does not exist") is returned
      as is, before anything is downloaded or verified. */
  lemma InstallStatErrorStops(env: Env, h: seq<Action>, opts: InstallOptions, version: Version,
                              answers: seq<Answer>, retries: nat, msg: string)
    requires FirstDecision(answers).Some?
    requires PreludeError(env, h, opts).value.None?
    requires env.stat(h + Prelude(opts), Path(TarballDir(opts), TarballName(version, env.arch))) == Unreadable(msg)
    ensures InstallKubeEdge(env, h, opts, version, answers, retries) == Run(Some(StatFailed(msg)), Prelude(opts))
  {
    assert Prelude(opts) + [] == Prelude(opts);
  }

  /** An absent tarball goes through retryDownload, whose first action is
      the download (when the retry budget is not zero). */
  lemma InstallAbsentDownloads(env: Env, h: seq<Action>, opts: InstallOptions, version: Version,
                               answers: seq<Answer>, retries: nat)
    requires FirstDecision(answers).Some?
    requires PreludeError(env, h, opts).value.None?
    requires env.stat(h + Prelude(opts), Path(TarballDir(opts), TarballName(version, env.arch))) == Absent
    requires retries > 0
    ensures var r := InstallKubeEdge(env, h, opts, version, answers, retries);
      var rd := RetryDownload(env, h + Prelude(opts), ArtifactFetch(version, env.arch, TarballDir(opts)), retries);
      && |r.actions| > |Prelude(opts)|
      && r.actions[|Prelude(opts)|] == FetchTarball(TarballDir(opts), version, TarballName(version, env.arch))
      && r.actions[..|Prelude(opts)| + |rd.actions|] == Prelude(opts) + rd.actions
      && (rd.value.Some? ==> r == Run(rd.value, Prelude(opts) + rd.actions))
  {
    var f := ArtifactFetch(version, env.arch, TarballDir(opts));
    var rd := RetryDownload(env, h + Prelude(opts), f, retries);
    var r := InstallKubeEdge(env, h, opts, version, answers, retries);
    InstallAbsentRetries(env, h, opts, version, answers, retries);
    RetryStartsWithDownload(env, h + Prelude(opts), f, retries);
    var n := |Prelude(opts)| + |rd.actions|;
    assert r.actions[..n][|Prelude(opts)|] == (Prelude(opts) + rd.actions)[|Prelude(opts)|];
  }

  /** With the directories in place and the tarball absent, the install
      continues with retryDownload's actions, and returns its error. */
  lemma InstallAbsentRetries(env: Env, h: seq<Action>, opts: InstallOptions, version: Version,
                             answers: seq<Answer>, retries: nat)
    requires FirstDecision(answers).Some?
    requires PreludeError(env, h, opts).value.None?
    requires env.stat(h + Prelude(opts), Path(TarballDir(opts), TarballName(version, env.arch))) == Absent
    ensures var r := InstallKubeEdge(env, h, opts, version, answers, retries);
      var rd := RetryDownload(env, h + Prelude(opts), ArtifactFetch(version, env.arch, TarballDir(opts)), retries);
      && r.actions[..|Prelude(opts)| + |rd.actions|] == Prelude(opts) + rd.actions
      && (rd.value.Some? ==> r == Run(rd.value, Prelude(opts) + rd.actions))
  {
    var pre := PreludeError(env, h, opts);
    var f := ArtifactFetch(version, env.arch, TarballDir(opts));
    assert Acquire(env, h + pre.actions, f, answers, retries) == RetryDownload(env, h + pre.actions, f, retries) by {
      AcquireAbsentIsRetry(env, h + pre.actions, f, answers, retries);
    }
    InstallResult(env, h, opts, version, answers, retries);
  }

  /** An absent tarball is acquired by retryDownload alone. */
  lemma AcquireAbsentIsRetry(env: Env, h: seq<Action>, f: Fetch, answers: seq<Answer>, retries: nat)
    requires FirstDecision(answers).Some?
    requires env.stat(h, Path(f.dir, f.file)).Absent?
    ensures Acquire(env, h, f, answers, retries) == RetryDownload(env, h, f, retries)
  {
  }

  /** The errors acquisition can end with: none of them is a unit-file or
      directory failure. */
  predicate AcquisitionError(e: Error) {
    e.StatFailed? || e.CommandFailed? || e.DigestFailed? || e.ReadFailed? || e.DownloadFailed?
  }

  lemma {:induction false} RetryErrors(env: Env, h: seq<Action>, f: Fetch, n: nat, k: nat)
    ensures var r := RetryFrom(env, h, f, n, k);
      r.value.Some? ==> AcquisitionError(r.value.value)
    decreases n - k
  {
    if k < n {
      var download := FetchTarball(f.dir, f.version, f.file);
      var cs := CheckSum(env, h + [download], f);
      var remove := RemoveFile(Path(f.dir, f.file));
      RetryErrors(env, h + [download] + cs.actions + [remove], f, n, k + 1);
    }
  }

  lemma AcquireErrors(env: Env, h: seq<Action>, f: Fetch, answers: seq<Answer>, retries: nat)
    requires FirstDecision(answers).Some?
    ensures var r := Acquire(env, h, f, answers, retries);
      r.value.Some? ==> AcquisitionError(r.value.value)
  {
    var cs := CheckSum(env, h, f);
    var remove := RemoveFile(Path(f.dir, f.file));
    RetryErrors(env, h, f, retries, 0);
    RetryErrors(env, h + cs.actions + [remove], f, retries, 0);
  }

  /** How the stages decide the install's result: it succeeds exactly when
      every stage issued succeeds; a directory or acquisition error is
      returned unchanged with no later stage issued; a unit-file error e
      becomes ServiceFileFailed(e), and no other stage produces that error. */
  lemma InstallResult(env: Env, h: seq<Action>, opts: InstallOptions, version: Version,
                      answers: seq<Answer>, retries: nat)
    requires FirstDecision(answers).Some?
    ensures var r := InstallKubeEdge(env, h, opts, version, answers, retries);
      var pre := PreludeError(env, h, opts);
      var f := ArtifactFetch(version, env.arch, TarballDir(opts));
      var acq := Acquire(env, h + pre.actions, f, answers, retries);
      var h2 := h + pre.actions + acq.actions;
      var svc := DownloadServiceFile(env, h2, opts.componentType, version, KUBE_EDGE_PATH);
      var place := PlaceBinary(env, h2 + svc.actions, opts.componentType, f, DirName(version, env.arch));
      && (r.value.None? <==> pre.value.None? && acq.value.None? && svc.value.None? && place.value.None?)
      && (pre.value.Some? ==> r == pre)
      && (pre.value.None? && acq.value.Some? ==> r == Run(acq.value, pre.actions + acq.actions))
      && (pre.value.None? && acq.value.None? && svc.value.Some? ==>
            r == Run(Some(ServiceFileFailed(svc.value.value)), pre.actions + acq.actions + svc.actions))
      && (pre.value.None? && acq.value.None? && svc.value.None? ==>
            r == Run(place.value, pre.actions + acq.actions + svc.actions + place.actions))
      && (r.value.Some? && r.value.value.ServiceFileFailed? <==>
            pre.value.None? && acq.value.None? && svc.value.Some?)
      && r.actions[..|pre.actions|] == pre.actions
      && (pre.value.None? ==> r.actions[..|pre.actions| + |acq.actions|] == pre.actions + acq.actions)
  {
    var pre := PreludeError(env, h, opts);
    var f := ArtifactFetch(version, env.arch, TarballDir(opts));
    var acq := Acquire(env, h + pre.actions, f, answers, retries);
    assert acq.value.Some? ==> !acq.value.value.ServiceFileFailed? by {
      AcquireErrors(env, h + pre.actions, f, answers, retries);
    }
  }

  /** With a budget left, retryDownload's first action is the download. */
  lemma RetryStartsWithDownload(env: Env, h: seq<Action>, f: Fetch, retries: nat)
    requires retries > 0
    ensures var r := RetryDownload(env, h, f, retries);
      |r.actions| > 0 && r.actions[0] == FetchTarball(f.dir, f.version, f.file)
  {
  }

  /** Actions of the steps after the tarball is in place: none of them
      downloads or removes a tarball. */
  predicate NotTarballAction(a: Action) {
    !a.FetchTarball? && !a.RemoveFile?
  }

  lemma AfterAcquireNoTarballActions(env: Env, h: seq<Action>, ct: ComponentType, version: Version, f: Fetch,
                                     dirname: string)
    ensures forall a :: a in DownloadServiceFile(env, h, ct, version, KUBE_EDGE_PATH).actions ==> NotTarballAction(a)
    ensures forall a :: a in PlaceBinary(env, h, ct, f, dirname).actions ==> NotTarballAction(a)
  {
  }

  /** A tarball that is already present is removed and downloaded again
      only when its checksum did not pass (a checksum error counts as not
      passing) and the user's first yes/no answer is yes; otherwise the
      install goes on with the file as it is. */
  lemma InstallRedownloadsOnlyOnConfirm(env: Env, h: seq<Action>, opts: InstallOptions, version: Version,
                                        answers: seq<Answer>, retries: nat)
    requires FirstDecision(answers).Some?
    requires PreludeError(env, h, opts).value.None?
    requires env.stat(h + Prelude(opts), Path(TarballDir(opts), TarballName(version, env.arch))).Present?
    ensures var r := InstallKubeEdge(env, h, opts, version, answers, retries);
      var cs := CheckSum(env, h + Prelude(opts), ArtifactFetch(version, env.arch, TarballDir(opts)));
      (exists a :: a in r.actions && !NotTarballAction(a)) ==>
        !(cs.value.Ok? && cs.value.value) && FirstDecision(answers) == Some(true)
  {
    var f := ArtifactFetch(version, env.arch, TarballDir(opts));
    var pre := PreludeError(env, h, opts);
    var cs := CheckSum(env, h + pre.actions, f);
    var r := InstallKubeEdge(env, h, opts, version, answers, retries);
    if (cs.value.Ok? && cs.value.value) || !FirstDecision(answers).value {
      var P := (a: Action) => NotTarballAction(a);
      assert AllSatisfy(P, pre.actions);
      var acq := Acquire(env, h + pre.actions, f, answers, retries);
      assert AllSatisfy(P, acq.actions) by {
        assert acq.actions == cs.actions;
        CheckSumActions(env, h + pre.actions, f);
      }
      var h2 := h + pre.actions + acq.actions;
      var svc := DownloadServiceFile(env, h2, opts.componentType, version, KUBE_EDGE_PATH);
      var place := PlaceBinary(env, h2 + svc.actions, opts.componentType, f, DirName(version, env.arch));
      assert AllSatisfy(P, svc.actions) by {
        AfterAcquireNoTarballActions(env, h2, opts.componentType, version, f, DirName(version, env.arch));
      }
      assert AllSatisfy(P, place.actions) by {
        AfterAcquireNoTarballActions(env, h2 + svc.actions, opts.componentType, version, f, DirName(version, env.arch));
      }
      InstallActionsSatisfy(P, env, h, opts, version, answers, retries);
    }
  }

  /** A completed install of either component ends by extracting the
      release in the tarball directory (/etc/kubeedge/ when none is given)
      and copying the component's binary into /usr/local/bin. */
  lemma InstallPlacesBinary(env: Env, h: seq<Action>, opts: InstallOptions, version: Version,
                            answers: seq<Answer>, retries: nat)
    requires FirstDecision(answers).Some?
    requires opts.componentType.CloudCore? || opts.componentType.EdgeCore?
    ensures var r := InstallKubeEdge(env, h, opts, version, answers, retries);
      r.value.None? ==>
        && |r.actions| >= 1
        && r.actions[|r.actions| - 1] ==
             ExtractAndCopy(TarballDir(opts), TarballName(version, env.arch),
                            BinarySource(opts.componentType, DirName(version, env.arch)).value,
                            KUBE_EDGE_USR_BIN_PATH)
  {
  }

  /** The unit file is always stored under /etc/kubeedge/, whatever the
      tarball directory, and comes from the release line UnitFileRelease
      chooses. */
  lemma InstallUnitFileLocation(env: Env, h: seq<Action>, opts: InstallOptions, version: Version,
                                answers: seq<Answer>, retries: nat)
    requires FirstDecision(answers).Some?
    ensures var r := InstallKubeEdge(env, h, opts, version, answers, retries);
      forall a :: a in r.actions && a.FetchServiceFile? ==>
        a.dir == KUBE_EDGE_PATH && a.release == UnitFileRelease(version, env.latest)
  {
    var P := (a: Action) => a.FetchServiceFile? ==> a.dir == KUBE_EDGE_PATH && a.release == UnitFileRelease(version, env.latest);
    var pre := PreludeError(env, h, opts);
    assert AllSatisfy(P, pre.actions);
    var f := ArtifactFetch(version, env.arch, TarballDir(opts));
    var acq := Acquire(env, h + pre.actions, f, answers, retries);
    assert AllSatisfy(P, acq.actions) by {
      AcquireOnArtifact(env, h + pre.actions, f, answers, retries);
    }
    var h2 := h + pre.actions + acq.actions;
    var svc := DownloadServiceFile(env, h2, opts.componentType, version, KUBE_EDGE_PATH);
    assert AllSatisfy(P, svc.actions) by {
      ServiceFileFetchedAtMostOnce(env, h2, opts.componentType, version, KUBE_EDGE_PATH);
    }
    var place := PlaceBinary(env, h2 + svc.actions, opts.componentType, f, DirName(version, env.arch));
    assert AllSatisfy(P, place.actions);
    InstallActionsSatisfy(P, env, h, opts, version, answers, retries);
  }

  /** Every action of an install satisfies P when every action of each of
      its stages does. */
  lemma InstallActionsSatisfy(P: Action -> bool, env: Env, h: seq<Action>, opts: InstallOptions, version: Version,
                              answers: seq<Answer>, retries: nat)
    requires FirstDecision(answers).Some?
    requires AllSatisfy(P, PreludeError(env, h, opts).actions)
    requires var pre := PreludeError(env, h, opts);
      var f := ArtifactFetch(version, env.arch, TarballDir(opts));
      var acq := Acquire(env, h + pre.actions, f, answers, retries);
      var h2 := h + pre.actions + acq.actions;
      var svc := DownloadServiceFile(env, h2, opts.componentType, version, KUBE_EDGE_PATH);
      && AllSatisfy(P, acq.actions)
      && AllSatisfy(P, svc.actions)
      && AllSatisfy(P, PlaceBinary(env, h2 + svc.actions, opts.componentType, f, DirName(version, env.arch)).actions)
    ensures AllSatisfy(P, InstallKubeEdge(env, h, opts, version, answers, retries).actions)
  {
  }

  /** A present tarball is kept, and acquisition succeeds after its
      checksum alone, when the checksum passed or the first answer is no. */
  lemma AcquireKeepsTarball(env: Env, h: seq<Action>, f: Fetch, answers: seq<Answer>, retries: nat)
    requires FirstDecision(answers).Some?
    requires env.stat(h, Path(f.dir, f.file)).Present?
    requires (CheckSum(env, h, f).value == Ok(true)) || FirstDecision(answers) == Some(false)
    ensures Acquire(env, h, f, answers, retries) == Run(None, CheckSum(env, h, f).actions)
  {
  }

  /** A present tarball whose checksum did not pass (a mismatch or an
      error) is, on a first answer of yes, removed; a failed removal is
      returned, otherwise retryDownload fetches it again. */
  lemma AcquireRedownloadsOnYes(env: Env, h: seq<Action>, f: Fetch, answers: seq<Answer>, retries: nat)
    requires FirstDecision(answers) == Some(true)
    requires env.stat(h, Path(f.dir, f.file)).Present?
    requires CheckSum(env, h, f).value != Ok(true)
    ensures var cs := CheckSum(env, h, f);
      var remove := RemoveFile(Path(f.dir, f.file));
      var rm := Finish(env, h + cs.actions, remove);
      var rd := RetryDownload(env, h + cs.actions + [remove], f, retries);
      var r := Acquire(env, h, f, answers, retries);
      && (rm.value.Some? ==> r == Run(rm.value, cs.actions + [remove]))
      && (rm.value.None? ==> r == Run(rd.value, cs.actions + [remove] + rd.actions))
  {
  }

  lemma AcquireOnArtifact(env: Env, h: seq<Action>, f: Fetch, answers: seq<Answer>, retries: nat)
    requires FirstDecision(answers).Some?
    ensures forall a :: a in Acquire(env, h, f, answers, retries).actions ==> OnArtifact(a, f)
  {
    match env.stat(h, Path(f.dir, f.file))
    case Unreadable(_) =>
    case Absent => RetryOnlyTouchesArtifact(env, h, f, retries, 0);
    case Present(_) =>
      var cs := CheckSum(env, h, f);
      CheckSumActions(env, h, f);
      var remove := RemoveFile(Path(f.dir, f.file));
      RetryOnlyTouchesArtifact(env, h + cs.actions + [remove], f, retries, 0);
  }

  // ---------------------------------------------------------------------
  // GetPackageManager

  /** The three suffixes exclude each other, so the order of the tests does
      not matter: a manager is picked exactly when the probe succeeded and
      its output ends with that manager's name. */
  lemma PackageManagerExact(reply: Reply, m: PackageManager)
    ensures PackageManagerOf(reply) == Some(m) <==> reply.err.None? && HasSuffix(reply.stdout, ManagerName(m))
  {
    var s := reply.stdout;
    if HasSuffix(s, "apt") { assert s[|s| - 1] == "apt"[2] == 't'; }
    if HasSuffix(s, "yum") { assert s[|s| - 1] == "yum"[2] == 'm'; }
    if HasSuffix(s, "pacman") { assert s[|s| - 1] == "pacman"[5] == 'n'; }
  }

  // ---------------------------------------------------------------------
  // KillKubeEdgeBinary

  /** For a process other than cloudcore, the last action stops a systemd
      unit exactly when systemd is present and an enabled unit matched;
      "edgecore" is preferred to "edge"; the unit file is removed unless
      stat reports it absent. Otherwise the process is killed with pkill. */
  lemma KillChoosesCommand(env: Env, h: seq<Action>, proc: string)
    requires proc != "cloudcore"
    ensures var r := KillKubeEdgeBinary(env, h, proc);
      var sd := HasSystemd(env, h).value;
      var edge := UnitEnabled(env, h + [ProbeInit], "edge").value;
      var edgecore := UnitEnabled(env, h + [ProbeInit, ListEnabledUnits("edge")], "edgecore").value;
      var last := r.actions[3];
      && (last.StopUnit? <==> sd && ((edge.running && edge.err.None?) || (edgecore.running && edgecore.err.None?)))
      && (last.StopUnit? && edgecore.running && edgecore.err.None? ==> last.unit == "edgecore")
      && (last.StopUnit? ==>
            (last.removeUnitFile <==> !env.stat(h + r.actions[..3], UnitFilePath(last.unit)).Absent?))
      && (!last.StopUnit? ==> last == Pkill(proc))
  {
    assert h + [ProbeInit] + [ListEnabledUnits("edge")] == h + [ProbeInit, ListEnabledUnits("edge")];
  }

  // ---------------------------------------------------------------------
  // runEdgeCore log file

  /** As written, a directly launched edgecore logs to a file outside the
      log directory that runEdgeCore creates and announces. */
  lemma LogAsWrittenOutsideLogDir(env: Env, h: seq<Action>)
    requires env.run(h, MakeDirs(KUBE_EDGE_LOG_PATH)).err.None?
    requires !HasSystemd(env, h + [MakeDirs(KUBE_EDGE_LOG_PATH)]).value
    ensures var r := RunEdgeCore(env, h);
      && r.actions[0] == MakeDirs(KUBE_EDGE_LOG_PATH)
      && r.actions[|r.actions| - 1] == LaunchEdgeCore("/etc/kubeedge/kubeedge/edge/edgecore.log")
      && !(KUBE_EDGE_LOG_PATH <= r.actions[|r.actions| - 1].logFile)
  {
    var log := EdgeCoreLogAsWritten();
    assert log == "/etc/kubeedge/kubeedge/edge/edgecore.log" by { AsWrittenLogPath(); }
    assert log[1] == 'e' && KUBE_EDGE_LOG_PATH[1] == 'v';
  }

  lemma AsWrittenLogPath()
    ensures EdgeCoreLogAsWritten() == "/etc/kubeedge/kubeedge/edge/edgecore.log"
  {
  }

  /** The corrected log file lies inside the created log directory. */
  lemma LogInsideLogDir()
    ensures KUBE_EDGE_LOG_PATH <= EdgeCoreLog()
    ensures |EdgeCoreLog()| > |KUBE_EDGE_LOG_PATH|
  {
  }

  /** Without systemd, the corrected runEdgeCore launches edgecore with its
      output in the log directory it has just created. */
  lemma RunEdgeCoreLogsInLogDir(env: Env, h: seq<Action>)
    requires env.run(h, MakeDirs(KUBE_EDGE_LOG_PATH)).err.None?
    requires !HasSystemd(env, h + [MakeDirs(KUBE_EDGE_LOG_PATH)]).value
    ensures var r := RunEdgeCoreIntended(env, h);
      && r.actions[|r.actions| - 1].LaunchEdgeCore?
      && KUBE_EDGE_LOG_PATH <= r.actions[|r.actions| - 1].logFile
  {
    LogInsideLogDir();
  }
}
