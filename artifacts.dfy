/** Names of the release artifacts, built from the version and the
    architecture (common_others.go, installKubeEdge). */
module Artifacts {
  import opened KubeEdgeTypes
  import opened Text

  /** A version as semver prints it: "major.minor.patch". */
  function VersionString(v: Version): string {
    NatToString(v.major) + "." + NatToString(v.minor) + "." + NatToString(v.patch)
  }

  /** The extraction directory "kubeedge-v{version}-linux-{arch}". */
  function DirName(v: Version, arch: string): string {
    "kubeedge-v" + VersionString(v) + "-linux-" + arch
  }

  /** The release tarball "kubeedge-v{version}-linux-{arch}.tar.gz"; the
      extraction directory is its name without the ".tar.gz" extension. */
  function TarballName(v: Version, arch: string): (r: string)
    ensures r == DirName(v, arch) + ".tar.gz"
  {
    "kubeedge-v" + VersionString(v) + "-linux-" + arch + ".tar.gz"
  }

  /** The checksum sidecar "checksum_kubeedge-v{version}-linux-{arch}.tar.gz.txt",
      which is "checksum_" + the tarball name + ".txt". */
  function ChecksumName(v: Version, arch: string): (r: string)
    ensures r == "checksum_" + TarballName(v, arch) + ".txt"
  {
    "checksum_kubeedge-v" + VersionString(v) + "-linux-" + arch + ".tar.gz.txt"
  }

  lemma NoSeparatorInNumber(n: nat, c: char)
    requires !IsDigit(c)
    ensures c !in NatToString(n)
  {
  }

  /** Different versions print differently. */
  lemma VersionStringInjective(v1: Version, v2: Version)
    requires VersionString(v1) == VersionString(v2)
    ensures v1 == v2
  {
    NoSeparatorInNumber(v1.major, '.');
    NoSeparatorInNumber(v2.major, '.');
    NoSeparatorInNumber(v1.minor, '.');
    NoSeparatorInNumber(v2.minor, '.');
    var tail1 := NatToString(v1.minor) + "." + NatToString(v1.patch);
    var tail2 := NatToString(v2.minor) + "." + NatToString(v2.patch);
    assert VersionString(v1) == NatToString(v1.major) + ['.'] + tail1;
    assert VersionString(v2) == NatToString(v2.major) + ['.'] + tail2;
    SplitAtFirst(NatToString(v1.major), tail1, NatToString(v2.major), tail2, '.');
    SplitAtFirst(NatToString(v1.minor), NatToString(v1.patch),
                 NatToString(v2.minor), NatToString(v2.patch), '.');
    NatToStringInjective(v1.major, v2.major);
    NatToStringInjective(v1.minor, v2.minor);
    NatToStringInjective(v1.patch, v2.patch);
  }

  lemma VersionStringHasNoDash(v: Version)
    ensures '-' !in VersionString(v)
  {
    NoSeparatorInNumber(v.major, '-');
    NoSeparatorInNumber(v.minor, '-');
    NoSeparatorInNumber(v.patch, '-');
  }

  /** The part of the tarball name between its fixed prefix and extension. */
  function Middle(v: Version, arch: string): string {
    VersionString(v) + ['-'] + ("linux-" + arch)
  }

  lemma TarballNameSplits(v: Version, arch: string)
    ensures TarballName(v, arch) == "kubeedge-v" + Middle(v, arch) + ".tar.gz"
  {
  }

  lemma AffixesCancel(p: string, m1: string, m2: string, q: string)
    requires p + m1 + q == p + m2 + q
    ensures m1 == m2
  {
    var t := p + m1 + q;
    assert m1 == t[|p|..|t| - |q|];
  }

  /** The tarball name determines the version and the architecture: two
      different (version, arch) pairs never share an artifact. */
  lemma TarballNameInjective(v1: Version, a1: string, v2: Version, a2: string)
    requires TarballName(v1, a1) == TarballName(v2, a2)
    ensures v1 == v2 && a1 == a2
  {
    TarballNameSplits(v1, a1);
    TarballNameSplits(v2, a2);
    AffixesCancel("kubeedge-v", Middle(v1, a1), Middle(v2, a2), ".tar.gz");
    VersionStringHasNoDash(v1);
    VersionStringHasNoDash(v2);
    SplitAtFirst(VersionString(v1), "linux-" + a1, VersionString(v2), "linux-" + a2, '-');
    VersionStringInjective(v1, v2);
    AffixesCancel("linux-", a1, a2, "");
  }

  /** Version 1.14.0 prints as "1.14.0". */
  lemma ExampleVersion()
    ensures VersionString(Version(1, 14, 0)) == "1.14.0"
  {
    assert NatToString(1) == "1" && NatToString(0) == "0";
    assert NatToString(14) == NatToString(1) + [Digit(4)];
  }

  /** The worked example, version 1.14.0 on amd64: the extraction directory. */
  lemma ExampleDirName()
    ensures DirName(Version(1, 14, 0), "amd64") == "kubeedge-v1.14.0-linux-amd64"
  {
    ExampleVersion();
  }

  /** The worked example: the tarball. */
  lemma ExampleTarballName()
    ensures TarballName(Version(1, 14, 0), "amd64") == "kubeedge-v1.14.0-linux-amd64.tar.gz"
  {
    ExampleDirName();
  }

  /** The worked example: the checksum sidecar. */
  lemma ExampleChecksumName()
    ensures ChecksumName(Version(1, 14, 0), "amd64") == "checksum_kubeedge-v1.14.0-linux-amd64.tar.gz.txt"
  {
    ExampleTarballName();
  }
}
