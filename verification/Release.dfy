/** Receipts, platforms and build entries shared by the release scripts. */
module Release {
  import opened Wrappers

  /** The supported targets, in the order of their names. */
  datatype Platform =
    | DarwinArm64 | WindowsArm64 | LinuxArm64 | LinuxArm | LinuxArmv7
    | WindowsX86 | LinuxX86 | DarwinX64 | WindowsX64 | LinuxX64
  {
    predicate IsWindows() {
      WindowsArm64? || WindowsX86? || WindowsX64?
    }

    /** Name of the core asset's platform. */
    function Legacy(): string {
      match this
      case DarwinArm64 => "darwin_arm64"
      case WindowsArm64 => "windows_arm64"
      case LinuxArm64 => "arm64"
      case LinuxArm => "armhf"
      case LinuxArmv7 => "armv7"
      case WindowsX86 => "windows_x86"
      case LinuxX86 => "x86"
      case DarwinX64 => "darwin_x86_64"
      case WindowsX64 => "windows_x86_64"
      case LinuxX64 => "x86_64"
    }

    /** Name of the platform in the component catalog. */
    function Canonical(): string {
      match this
      case DarwinArm64 => "aarch64-apple-darwin"
      case WindowsArm64 => "aarch64-pc-windows-msvc"
      case LinuxArm64 => "aarch64-unknown-linux-gnu"
      case LinuxArm => "arm-unknown-linux-gnueabihf"
      case LinuxArmv7 => "armv7-unknown-linux-gnueabihf"
      case WindowsX86 => "i686-pc-windows-msvc"
      case LinuxX86 => "i686-unknown-linux-gnu"
      case DarwinX64 => "x86_64-apple-darwin"
      case WindowsX64 => "x86_64-pc-windows-msvc"
      case LinuxX64 => "x86_64-unknown-linux-gnu"
    }
  }

  /** No two targets share a catalog or asset name. */
  lemma NamesAreDistinct(p: Platform, q: Platform)
    requires p != q
    ensures p.Legacy() != q.Legacy() && p.Canonical() != q.Canonical()
  {
    assert "arm64"[3] == '6' && "armhf"[3] == 'h' && "armv7"[3] == 'v';
    assert "darwin_x86_64"[0] == 'd' && "windows_arm64"[0] == 'w';
    assert "i686-unknown-linux-gnu"[0] == 'i' && "x86_64-pc-windows-msvc"[0] == 'x';
    assert "aarch64-apple-darwin"[0] == 'a' && "i686-pc-windows-msvc"[0] == 'i';
  }

  const ORDER: seq<Platform> := [
    DarwinArm64, WindowsArm64, LinuxArm64, LinuxArm, LinuxArmv7,
    WindowsX86, LinuxX86, DarwinX64, WindowsX64, LinuxX64]

  type Tool = string
  type Blob = seq<bv8>

  const CORE: Tool := "core"
  const TOOLS: set<Tool> := {"sync", "tor", "terminal", "stats", "transfer"}
  const REQUIRED: set<Tool> := {"sync", "tor", "terminal", "stats"}
  const MAX_RECEIPT: nat := 0x20_0000

  datatype Version = Version(major: nat, minor: nat, patch: nat) {
    predicate Below(other: Version) {
      || major < other.major
      || (major == other.major && minor < other.minor)
      || (major == other.major && minor == other.minor && patch < other.patch)
    }

    function Bumped(): Version {
      Version(major, minor, patch + 1)
    }
  }

  type Identity = (Tool, Version)

  /**
   * `blob` stands for the recorded size and digest, which determine the binary.
   * `intact` says that the receipt's own digests and formats are right. `compact`
   * and `spaced` are its lengths in the two JSON layouts the scripts use.
   */
  datatype Receipt = Receipt(
    tool: Tool, version: Version, target: Option<Platform>, revision: string, fingerprint: nat,
    profile: string, name: string, blob: Blob, intact: bool, compact: nat, spaced: nat)
  {
    function Id(): Identity {
      (tool, version)
    }

    predicate Genuine() {
      intact && 0 < |blob| <= 0x2000_0000
    }

    /** The binary is the one the receipt was written for. */
    predicate Matches(binary: Blob) {
      Genuine() && blob == binary
    }
  }

  datatype Build = Build(receipt: Receipt, binary: Blob)

  function ExecutableName(tool: Tool, p: Platform): string {
    (if tool == CORE then "porthub" else "porthub-" + tool) + if p.IsWindows() then ".exe" else ""
  }

  // -----------------------------------------------------------------------------
  // Dictionaries filled in a loop
  // -----------------------------------------------------------------------------

  /** The dictionary after inserting the pairs in order. */
  function Dict<K(==), V>(pairs: seq<(K, V)>): map<K, V> {
    if pairs == [] then map[]
    else Dict(pairs[..|pairs| - 1])[pairs[|pairs| - 1].0 := pairs[|pairs| - 1].1]
  }

  predicate DistinctKeys<K(==), V>(pairs: seq<(K, V)>) {
    forall i, j :: 0 <= i < j < |pairs| ==> pairs[i].0 != pairs[j].0
  }

  lemma {:induction false} DictAt<K, V>(pairs: seq<(K, V)>, i: nat)
    requires DistinctKeys(pairs) && i < |pairs|
    ensures pairs[i].0 in Dict(pairs) && Dict(pairs)[pairs[i].0] == pairs[i].1
  {
    if i < |pairs| - 1 {
      DictAt(pairs[..|pairs| - 1], i);
    }
  }

  lemma {:induction false} DictKey<K, V>(pairs: seq<(K, V)>, k: K) returns (i: nat)
    requires k in Dict(pairs)
    ensures i < |pairs| && pairs[i].0 == k
  {
    var n := |pairs| - 1;
    if pairs[n].0 == k {
      i := n;
    } else {
      i := DictKey(pairs[..n], k);
    }
  }
}
