/**
 * getDownloadUrl: maps the Go runtime's operating-system and
 * architecture names plus a requested accelerator to the llama.cpp release archive
 * to download. The runtime names are parameters here rather than read from `runtime`.
 */
module Release {
  import opened Wrappers

  /** The pinned llama.cpp release (lcp_VERSION). */
  const Version: string := "b6209"
  const ReleaseBase: string := "https://github.com/ggml-org/llama.cpp/releases/download/"
  /** Everything in a release URL before the operating-system tag. */
  const Stem: string := ReleaseBase + Version + "/llama-" + Version + "-bin-"

  const UnsupportedOs: string := "unsupported operating system"
  const UnsupportedArch: string := "unsupported cpu architecture"

  datatype HostOs = Win | Mac | Ubuntu
  datatype HostArch = X64 | Arm
  /** HostHardware: HW_CPU, HW_CUDA, HW_VULKAN, HW_RADEON, HW_NONE. */
  datatype HostHardware = Cpu | Cuda | Vulkan | Radeon | NoHardware
  /** hostInfo: the resolved platform a release is chosen for. */
  datatype Host = Host(opSys: HostOs, hardware: HostHardware, arch: HostArch)

  /** osNames */
  function OsName(os: HostOs): (name: string)
    ensures os == Win <==> name == "win"
    ensures os == Mac <==> name == "macos"
    ensures os == Ubuntu <==> name == "ubuntu"
  {
    match os
    case Win => "win"
    case Mac => "macos"
    case Ubuntu => "ubuntu"
  }

  /** archNames */
  function ArchName(arch: HostArch): (name: string)
    ensures arch == X64 <==> name == "x64"
    ensures arch == Arm <==> name == "arm64"
  {
    match arch
    case X64 => "x64"
    case Arm => "arm64"
  }

  /** hwNames */
  function HwName(hw: HostHardware): (name: string)
    ensures hw == NoHardware <==> name == ""
    ensures hw == Cpu <==> name == "cpu"
    ensures hw == Cuda <==> name == "cuda-12.4"
    ensures hw == Vulkan <==> name == "vulkan"
    ensures hw == Radeon <==> name == "hip-radeon"
  {
    match hw
    case Cpu => "cpu"
    case Cuda => "cuda-12.4"
    case Vulkan => "vulkan"
    case Radeon => "hip-radeon"
    case NoHardware => ""
  }

  /** The switch on runtime.GOOS. */
  function HostOsOf(goos: string): (r: Option<HostOs>)
    ensures r.Some? <==> goos == "windows" || goos == "darwin" || goos == "linux"
    ensures goos == "windows" ==> r == Some(Win)
    ensures goos == "darwin" ==> r == Some(Mac)
    ensures goos == "linux" ==> r == Some(Ubuntu)
  {
    if goos == "windows" then Some(Win)
    else if goos == "darwin" then Some(Mac)
    else if goos == "linux" then Some(Ubuntu)
    else None
  }

  /** The switch on runtime.GOARCH. */
  function HostArchOf(goarch: string): (r: Option<HostArch>)
    ensures r.Some? <==> goarch == "amd64" || goarch == "arm64"
    ensures goarch == "amd64" ==> r == Some(X64)
    ensures goarch == "arm64" ==> r == Some(Arm)
  {
    if goarch == "amd64" then Some(X64)
    else if goarch == "arm64" then Some(Arm)
    else None
  }

  /** The per-OS accelerator policy. */
  function ResolveHardware(os: HostOs, requested: HostHardware): (hw: HostHardware)
    ensures os == Win ==> hw != NoHardware && (requested != NoHardware ==> hw == requested)
    ensures os == Win && requested == NoHardware ==> hw == Cpu
    ensures os == Mac ==> hw == NoHardware
    ensures os == Ubuntu ==> (hw == Vulkan <==> requested == Vulkan) && (hw == Vulkan || hw == NoHardware)
  {
    match os
    case Win => if requested == NoHardware then Cpu else requested
    case Mac => NoHardware
    case Ubuntu => if requested == Vulkan then Vulkan else NoHardware
  }

  /** The optional "<hw>-" segment: present exactly when hardware is not HW_NONE. */
  function HardwareSegment(hw: HostHardware): string {
    if hw != NoHardware then HwName(hw) + "-" else ""
  }

  /** "<os>-[<hw>-]<arch>.zip" */
  function HostTag(h: Host): string {
    OsName(h.opSys) + "-" + HardwareSegment(h.hardware) + ArchName(h.arch) + ".zip"
  }

  /** The release URL of a host; it starts with the release stem and names exactly that host. */
  function ReleaseName(h: Host): (url: string)
    ensures Stem <= url
    ensures ParseReleaseName(url) == Some(h)
  {
    ParseReleaseNameInverts(h);
    Stem + HostTag(h)
  }

  /** The platform part of getDownloadUrl: the two switches and the accelerator policy. */
  function ResolveHost(goos: string, goarch: string, requested: HostHardware): (r: Result<Host>)
    ensures HostOsOf(goos).None? ==> r == Err(UnsupportedOs)
    ensures HostOsOf(goos).Some? && HostArchOf(goarch).None? ==> r == Err(UnsupportedArch)
    ensures r.Ok? <==> HostOsOf(goos).Some? && HostArchOf(goarch).Some?
    ensures r.Ok? ==> r.value.opSys == HostOsOf(goos).value && r.value.arch == HostArchOf(goarch).value
                      && r.value.hardware == ResolveHardware(r.value.opSys, requested)
  {
    match HostOsOf(goos)
    case None => Err(UnsupportedOs)
    case Some(os) =>
      match HostArchOf(goarch)
      case None => Err(UnsupportedArch)
      case Some(arch) => Ok(Host(os, ResolveHardware(os, requested), arch))
  }

  /**
   * getDownloadUrl. An unsupported operating system or architecture is an error and
   * yields no URL; otherwise the URL names exactly the resolved host, which
   * ParseReleaseName recovers from it.
   */
  function DownloadUrl(goos: string, goarch: string, requested: HostHardware): (r: Result<string>)
    ensures !(goos == "windows" || goos == "darwin" || goos == "linux") ==> r == Err(UnsupportedOs)
    ensures ((goos == "windows" || goos == "darwin" || goos == "linux") && !(goarch == "amd64" || goarch == "arm64"))
            ==> r == Err(UnsupportedArch)
    ensures r.Ok? <==> (goos == "windows" || goos == "darwin" || goos == "linux") && (goarch == "amd64" || goarch == "arm64")
    ensures r.Ok? ==> Stem <= r.value && ParseReleaseName(r.value) == Some(ResolveHost(goos, goarch, requested).value)
  {
    match ResolveHost(goos, goarch, requested)
    case Err(e) => Err(e)
    case Ok(h) => Ok(ReleaseName(h))
  }

  // ---------------------------------------------------------------------------
  // The inverse: reading the resolved host back out of a release URL.

  function ParseOsTag(t: string): Option<(HostOs, string)> {
    if "win-" <= t then Some((Win, t[4..]))
    else if "macos-" <= t then Some((Mac, t[6..]))
    else if "ubuntu-" <= t then Some((Ubuntu, t[7..]))
    else None
  }

  function ParseHardwareSegment(t: string): (HostHardware, string) {
    if "cpu-" <= t then (Cpu, t[4..])
    else if "cuda-12.4-" <= t then (Cuda, t[10..])
    else if "vulkan-" <= t then (Vulkan, t[7..])
    else if "hip-radeon-" <= t then (Radeon, t[11..])
    else (NoHardware, t)
  }

  function ParseArchTag(t: string): Option<HostArch> {
    if t == "x64.zip" then Some(X64)
    else if t == "arm64.zip" then Some(Arm)
    else None
  }

  function ParseHostTag(t: string): Option<Host> {
    match ParseOsTag(t)
    case None => None
    case Some((os, rest)) =>
      var (hw, rest') := ParseHardwareSegment(rest);
      match ParseArchTag(rest')
      case None => None
      case Some(arch) => Some(Host(os, hw, arch))
  }

  function ParseReleaseName(url: string): Option<Host> {
    if Stem <= url then ParseHostTag(url[|Stem|..]) else None
  }

  lemma PrefixOfConcat(p: string, rest: string)
    ensures p <= p + rest && (p + rest)[|p|..] == rest
  {
  }

  lemma NotPrefixAt(p: string, s: string, i: nat)
    requires i < |p| && i < |s| && p[i] != s[i]
    ensures !(p <= s)
  {
  }

  lemma ParseOsTagOf(os: HostOs, rest: string)
    ensures ParseOsTag(OsName(os) + "-" + rest) == Some((os, rest))
  {
    var t := OsName(os) + "-" + rest;
    PrefixOfConcat(OsName(os) + "-", rest);
    match os
    case Win =>
    case Mac =>
      NotPrefixAt("win-", t, 0);
    case Ubuntu =>
      NotPrefixAt("win-", t, 0);
      NotPrefixAt("macos-", t, 0);
  }

  lemma ParseArchTagOf(arch: HostArch)
    ensures ParseArchTag(ArchName(arch) + ".zip") == Some(arch)
  {
  }

  /** Without a hardware segment the text starts with the architecture, which no hardware tag matches. */
  lemma ParseNoHardwareSegment(arch: HostArch)
    ensures ParseHardwareSegment(ArchName(arch) + ".zip") == (NoHardware, ArchName(arch) + ".zip")
  {
    var t := ArchName(arch) + ".zip";
    assert t[0] == 'x' || t[0] == 'a';
    NotPrefixAt("cpu-", t, 0);
    NotPrefixAt("cuda-12.4-", t, 0);
    NotPrefixAt("vulkan-", t, 0);
    NotPrefixAt("hip-radeon-", t, 0);
  }

  /** A hardware segment is recognised by its own tag and by no earlier one. */
  lemma ParseSomeHardwareSegment(hw: HostHardware, tail: string)
    requires hw != NoHardware
    ensures ParseHardwareSegment(HwName(hw) + "-" + tail) == (hw, tail)
  {
    var t := HwName(hw) + "-" + tail;
    PrefixOfConcat(HwName(hw) + "-", tail);
    match hw
    case Cpu =>
    case Cuda =>
      NotPrefixAt("cpu-", t, 1);
    case Vulkan =>
      NotPrefixAt("cpu-", t, 0);
      NotPrefixAt("cuda-12.4-", t, 0);
    case Radeon =>
      NotPrefixAt("cpu-", t, 0);
      NotPrefixAt("cuda-12.4-", t, 0);
      NotPrefixAt("vulkan-", t, 0);
  }

  lemma ParseHardwareSegmentOf(hw: HostHardware, arch: HostArch)
    ensures ParseHardwareSegment(HardwareSegment(hw) + ArchName(arch) + ".zip") == (hw, ArchName(arch) + ".zip")
  {
    var tail := ArchName(arch) + ".zip";
    if hw == NoHardware {
      assert HardwareSegment(hw) + ArchName(arch) + ".zip" == tail;
      ParseNoHardwareSegment(arch);
    } else {
      assert HardwareSegment(hw) + ArchName(arch) + ".zip" == HwName(hw) + "-" + tail;
      ParseSomeHardwareSegment(hw, tail);
    }
  }

  /** Every release name, for any host, parses back to that host. */
  lemma ParseReleaseNameInverts(h: Host)
    ensures ParseReleaseName(Stem + HostTag(h)) == Some(h)
  {
    var tail := HardwareSegment(h.hardware) + ArchName(h.arch) + ".zip";
    assert HostTag(h) == OsName(h.opSys) + "-" + tail;
    PrefixOfConcat(Stem, HostTag(h));
    ParseOsTagOf(h.opSys, tail);
    ParseHardwareSegmentOf(h.hardware, h.arch);
    ParseArchTagOf(h.arch);
  }

  lemma PrefixSplit(p: string, t: string)
    requires p <= t
    ensures t == p + t[|p|..]
  {
  }

  lemma ParseOsTagExact(t: string)
    requires ParseOsTag(t).Some?
    ensures t == OsName(ParseOsTag(t).value.0) + "-" + ParseOsTag(t).value.1
  {
    if "win-" <= t {
      PrefixSplit("win-", t);
    } else if "macos-" <= t {
      PrefixSplit("macos-", t);
    } else {
      PrefixSplit("ubuntu-", t);
    }
  }

  lemma ParseHardwareSegmentExact(t: string)
    ensures t == HardwareSegment(ParseHardwareSegment(t).0) + ParseHardwareSegment(t).1
  {
    if "cpu-" <= t {
      PrefixSplit("cpu-", t);
    } else if "cuda-12.4-" <= t {
      PrefixSplit("cuda-12.4-", t);
    } else if "vulkan-" <= t {
      PrefixSplit("vulkan-", t);
    } else if "hip-radeon-" <= t {
      PrefixSplit("hip-radeon-", t);
    } else {
      assert HardwareSegment(NoHardware) == "";
    }
  }

  lemma ParseArchTagExact(t: string)
    requires ParseArchTag(t).Some?
    ensures t == ArchName(ParseArchTag(t).value) + ".zip"
  {
    if t == "x64.zip" {
      assert ArchName(X64) + ".zip" == "x64.zip";
    } else {
      assert ArchName(Arm) + ".zip" == "arm64.zip";
    }
  }

  lemma HostTagSplit(h: Host)
    ensures HostTag(h) == OsName(h.opSys) + "-" + (HardwareSegment(h.hardware) + (ArchName(h.arch) + ".zip"))
  {
    var a, b, c, d := OsName(h.opSys), HardwareSegment(h.hardware), ArchName(h.arch), ".zip";
    assert a + "-" + b + c + d == a + "-" + (b + (c + d));
  }

  lemma ParseHostTagExact(t: string, h: Host)
    requires ParseHostTag(t) == Some(h)
    ensures t == HostTag(h)
  {
    ParseOsTagExact(t);
    var p := ParseOsTag(t).value;
    ParseHardwareSegmentExact(p.1);
    var q := ParseHardwareSegment(p.1);
    assert ParseArchTag(q.1) == Some(h.arch) && p.0 == h.opSys && q.0 == h.hardware;
    ParseArchTagExact(q.1);
    HostTagSplit(h);
  }

  /** The parser accepts nothing but release names: whatever it reads as host h is exactly ReleaseName(h). */
  lemma ParseReleaseNameExact(url: string, h: Host)
    requires ParseReleaseName(url) == Some(h)
    ensures url == ReleaseName(h)
  {
    PrefixSplit(Stem, url);
    ParseHostTagExact(url[|Stem|..], h);
  }

  /** Distinct hosts get distinct release names. */
  lemma ReleaseNameInjective(h1: Host, h2: Host)
    ensures ReleaseName(h1) == ReleaseName(h2) <==> h1 == h2
  {
  }

  /** On Windows the URL always carries an accelerator segment: HW_NONE becomes HW_CPU, anything else is kept. */
  lemma WindowsAlwaysNamesHardware(goarch: string, requested: HostHardware)
    requires DownloadUrl("windows", goarch, requested).Ok?
    ensures var h := ParseReleaseName(DownloadUrl("windows", goarch, requested).value).value;
            h.opSys == Win && h.hardware != NoHardware
            && h.hardware == (if requested == NoHardware then Cpu else requested)
  {
  }

  /** On macOS the requested accelerator has no effect on the URL. */
  lemma MacIgnoresHardware(goarch: string, hw1: HostHardware, hw2: HostHardware)
    ensures DownloadUrl("darwin", goarch, hw1) == DownloadUrl("darwin", goarch, hw2)
  {
  }

  /**
   * On Linux a request gives the same URL as HW_NONE exactly when it is not Vulkan:
   * every other accelerator collapses, and the Vulkan build is a different archive.
   */
  lemma LinuxOnlyVulkanCounts(goarch: string, requested: HostHardware)
    requires goarch == "amd64" || goarch == "arm64"
    ensures DownloadUrl("linux", goarch, requested) == DownloadUrl("linux", goarch, NoHardware)
            <==> requested != Vulkan
  {
  }

  /** Two successful resolutions give the same URL exactly when they resolve to the same host. */
  lemma DownloadUrlDeterminesHost(goos1: string, goarch1: string, hw1: HostHardware,
                                  goos2: string, goarch2: string, hw2: HostHardware)
    requires DownloadUrl(goos1, goarch1, hw1).Ok? && DownloadUrl(goos2, goarch2, hw2).Ok?
    ensures DownloadUrl(goos1, goarch1, hw1) == DownloadUrl(goos2, goarch2, hw2)
            <==> ResolveHost(goos1, goarch1, hw1) == ResolveHost(goos2, goarch2, hw2)
  {
  }
}
