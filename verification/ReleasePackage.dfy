/** Packaging verified builds into a release, and recovering them for reuse. */
module ReleasePackage {
  import opened Wrappers
  import opened Release

  const MAX_EXECUTABLE: nat := 0x1000_0000
  const MAX_PLATFORM: nat := 0x4000_0000
  const MAX_ENVELOPE: nat := 0x80_0000
  const MAX_TOOLS: nat := 127
  const MAX_ROWS: nat := 128

  /** One input of the packager; `size` is the length of the receipt file. */
  datatype Entry = Entry(build: Build, regular: bool, size: nat)

  datatype CoreAsset = CoreAsset(target: string, executable: Blob)

  datatype Artifact = Artifact(
    component: Tool, version: Version, target: string, revision: string, buildInputs: nat, executable: Blob)
  {
    function Id(): Identity {
      (component, version)
    }
  }

  type Member = (Tool, Version, string)

  datatype Archive = Archive(envelope: seq<Receipt>, members: map<Member, Blob>)

  datatype Package = Package(
    coreVersion: Version, coreAssets: seq<CoreAsset>, artifacts: seq<Artifact>,
    files: map<Platform, Blob>, archives: map<Platform, Archive>)

  /** A row of a build index with the files it names. */
  datatype Row = Row(tool: Tool, version: Version, receipt: Receipt, size: nat, binary: Blob)

  // -----------------------------------------------------------------------------
  // Packaging
  // -----------------------------------------------------------------------------

  predicate Admissible(e: Entry) {
    var r := e.build.receipt;
    && e.regular && e.size <= MAX_RECEIPT && r.Matches(e.build.binary)
    && r.target.Some? && (r.tool in TOOLS || r.tool == CORE)
    && |r.blob| <= MAX_EXECUTABLE
    && r.name == ExecutableName(r.tool, r.target.value) && r.profile == "release"
  }

  function Key(b: Build): (Option<Platform>, Tool, Version) {
    (b.receipt.target, b.receipt.tool, b.receipt.version)
  }

  function Builds(entries: seq<Entry>): (r: seq<Build>)
    ensures |r| == |entries| && forall i :: 0 <= i < |r| ==> r[i] == entries[i].build
  {
    seq(|entries|, i requires 0 <= i < |entries| => entries[i].build)
  }

  predicate DistinctBuilds(builds: seq<Build>) {
    forall i, j :: 0 <= i < j < |builds| ==> Key(builds[i]) != Key(builds[j])
  }

  predicate Belongs(b: Build, p: Platform, core: bool) {
    b.receipt.target == Some(p) && (b.receipt.tool == CORE) == core
  }

  /** The core builds, or the tool builds, of one platform. */
  function Of(builds: seq<Build>, p: Platform, core: bool): seq<Build> {
    if builds == [] then []
    else
      var n := |builds| - 1;
      Of(builds[..n], p, core) + if Belongs(builds[n], p, core) then [builds[n]] else []
  }

  predicate HasCore(builds: seq<Build>, p: Platform) {
    Of(builds, p, true) != []
  }

  /** Everything packed for one platform, core first. */
  function Packed(builds: seq<Build>, p: Platform): seq<Build> {
    Of(builds, p, true) + Of(builds, p, false)
  }

  predicate OneCoreEach(builds: seq<Build>) {
    forall p: Platform :: |Of(builds, p, true)| <= 1
  }

  predicate CoresAgree(builds: seq<Build>) {
    && (exists p: Platform :: HasCore(builds, p))
    && forall p: Platform, q: Platform :: HasCore(builds, p) && HasCore(builds, q) ==>
         var a, b := Of(builds, p, true)[0].receipt, Of(builds, q, true)[0].receipt;
         a.version == b.version && a.revision == b.revision
  }

  predicate ToolsWithCores(builds: seq<Build>) {
    forall p: Platform :: HasCore(builds, p) <==> Of(builds, p, false) != []
  }

  predicate HasRequired(builds: seq<Build>) {
    forall t :: t in REQUIRED ==> exists b :: b in builds && b.receipt.tool == t
  }

  predicate Complete(builds: seq<Build>) {
    forall p: Platform :: HasCore(builds, p) && HasRequired(Of(builds, p, false))
  }

  function Receipts(builds: seq<Build>): (r: seq<Receipt>)
    ensures |r| == |builds| && forall i :: 0 <= i < |r| ==> r[i] == builds[i].receipt
  {
    seq(|builds|, i requires 0 <= i < |builds| => builds[i].receipt)
  }

  function TotalSize(builds: seq<Build>): nat {
    if builds == [] then 0 else TotalSize(builds[..|builds| - 1]) + |builds[|builds| - 1].receipt.blob|
  }

  /** Length of the receipt envelope: a fixed frame, the receipts and the commas between them. */
  function EnvelopeSize(receipts: seq<Receipt>): nat {
    if receipts == [] then 34
    else
      var n := |receipts| - 1;
      EnvelopeSize(receipts[..n]) + receipts[n].compact + if n == 0 then 0 else 1
  }

  predicate Small(builds: seq<Build>, p: Platform) {
    HasCore(builds, p) ==>
      && |Of(builds, p, false)| <= MAX_TOOLS
      && TotalSize(Of(builds, p, false)) <= MAX_PLATFORM
      && EnvelopeSize(Receipts(Packed(builds, p))) <= MAX_ENVELOPE
  }

  function ArtifactOf(b: Build, p: Platform): Artifact {
    var r := b.receipt;
    Artifact(r.tool, r.version, p.Canonical(), r.revision, r.fingerprint, r.blob)
  }

  function ArtifactsOf(builds: seq<Build>, p: Platform): (r: seq<Artifact>)
    ensures |r| == |builds| && forall i :: 0 <= i < |r| ==> r[i] == ArtifactOf(builds[i], p)
  {
    seq(|builds|, i requires 0 <= i < |builds| => ArtifactOf(builds[i], p))
  }

  function MemberPairs(builds: seq<Build>): (r: seq<(Member, Blob)>)
    ensures |r| == |builds|
    ensures forall i :: 0 <= i < |r| ==>
              r[i] == ((builds[i].receipt.tool, builds[i].receipt.version, builds[i].receipt.name), builds[i].binary)
  {
    seq(|builds|, i requires 0 <= i < |builds| =>
      ((builds[i].receipt.tool, builds[i].receipt.version, builds[i].receipt.name), builds[i].binary))
  }

  function ArchiveOf(builds: seq<Build>, p: Platform): Archive {
    Archive(Receipts(Packed(builds, p)), Dict(MemberPairs(Of(builds, p, false))))
  }

  // What is written for the platforms in `order`, those without a core being skipped.

  function AssetsFor(builds: seq<Build>, order: seq<Platform>): seq<CoreAsset> {
    if order == [] then []
    else
      var n := |order| - 1;
      AssetsFor(builds, order[..n])
      + if HasCore(builds, order[n])
        then [CoreAsset(order[n].Legacy(), Of(builds, order[n], true)[0].receipt.blob)] else []
  }

  function ArtifactsFor(builds: seq<Build>, order: seq<Platform>): seq<Artifact> {
    if order == [] then []
    else
      var n := |order| - 1;
      ArtifactsFor(builds, order[..n])
      + if HasCore(builds, order[n]) then ArtifactsOf(Of(builds, order[n], false), order[n]) else []
  }

  function FilesFor(builds: seq<Build>, order: seq<Platform>): map<Platform, Blob> {
    if order == [] then map[]
    else
      var n := |order| - 1;
      var before := FilesFor(builds, order[..n]);
      if HasCore(builds, order[n]) then before[order[n] := Of(builds, order[n], true)[0].binary] else before
  }

  function ArchivesFor(builds: seq<Build>, order: seq<Platform>): map<Platform, Archive> {
    if order == [] then map[]
    else
      var n := |order| - 1;
      var before := ArchivesFor(builds, order[..n]);
      if HasCore(builds, order[n]) then before[order[n] := ArchiveOf(builds, order[n])] else before
  }

  function Staged(builds: seq<Build>, version: Version, order: seq<Platform>): Package {
    Package(version, AssetsFor(builds, order), ArtifactsFor(builds, order),
            FilesFor(builds, order), ArchivesFor(builds, order))
  }

  /** The version of the first core. */
  function CoreVersion(builds: seq<Build>): Version {
    if builds == [] then Version(0, 0, 0)
    else if builds[0].receipt.tool == CORE then builds[0].receipt.version
    else CoreVersion(builds[1..])
  }

  predicate Accepted(entries: seq<Entry>, verifyOnly: bool) {
    var builds := Builds(entries);
    && (forall i :: 0 <= i < |entries| ==> Admissible(entries[i]))
    && DistinctBuilds(builds) && OneCoreEach(builds) && CoresAgree(builds) && ToolsWithCores(builds)
    && (verifyOnly || Complete(builds))
    && forall p: Platform :: Small(builds, p)
  }

  /** `fits` covers the archive, protocol and manifest limits. */
  function Packaged(entries: seq<Entry>, verifyOnly: bool, fits: bool): Option<Package> {
    if !Accepted(entries, verifyOnly) || !fits then None
    else Some(Staged(Builds(entries), CoreVersion(Builds(entries)), ORDER))
  }

  // -----------------------------------------------------------------------------
  // Recovering
  // -----------------------------------------------------------------------------

  function FirstAsset(assets: seq<CoreAsset>, target: string): Option<CoreAsset> {
    if assets == [] then None
    else if assets[0].target == target then Some(assets[0])
    else FirstAsset(assets[1..], target)
  }

  function Select(artifacts: seq<Artifact>, target: string): seq<Artifact> {
    if artifacts == [] then []
    else
      var n := |artifacts| - 1;
      Select(artifacts[..n], target) + if artifacts[n].target == target then [artifacts[n]] else []
  }

  function ArtifactPairs(artifacts: seq<Artifact>): (r: seq<(Identity, Artifact)>)
    ensures |r| == |artifacts| && forall i :: 0 <= i < |r| ==> r[i] == (artifacts[i].Id(), artifacts[i])
  {
    seq(|artifacts|, i requires 0 <= i < |artifacts| => (artifacts[i].Id(), artifacts[i]))
  }

  /** What the release directory declares and holds for one platform. */
  datatype Sources = Sources(
    platform: Platform, coreVersion: Version, core: Blob, coreFile: Blob,
    tools: map<Identity, Artifact>, members: map<Member, Blob>)

  /** The executable a receipt names, when the manifest vouches for both. */
  function Fetched(s: Sources, r: Receipt): Option<Blob> {
    if r.spaced > MAX_RECEIPT || !r.Genuine() || r.target != Some(s.platform) then None
    else if r.name != ExecutableName(r.tool, s.platform) || r.profile != "release" then None
    else if r.tool == CORE then
      if r.version != s.coreVersion || r.blob != s.core || !r.Matches(s.coreFile) then None
      else Some(s.coreFile)
    else if r.Id() !in s.tools || (r.tool, r.version, r.name) !in s.members then None
    else
      var artifact, binary := s.tools[r.Id()], s.members[(r.tool, r.version, r.name)];
      if r.revision != artifact.revision || r.fingerprint != artifact.buildInputs || r.blob != artifact.executable then None
      else if !r.Matches(binary) then None
      else Some(binary)
  }

  function Ids(receipts: seq<Receipt>): set<Identity> {
    if receipts == [] then {} else Ids(receipts[..|receipts| - 1]) + {receipts[|receipts| - 1].Id()}
  }

  predicate DistinctIds(receipts: seq<Receipt>) {
    forall i, j :: 0 <= i < j < |receipts| ==> receipts[i].Id() != receipts[j].Id()
  }

  predicate AllFetched(s: Sources, receipts: seq<Receipt>) {
    DistinctIds(receipts) && forall i :: 0 <= i < |receipts| ==> Fetched(s, receipts[i]).Some?
  }

  /** The recovered directory; its receipt files end in a newline. */
  function Rows(s: Sources, receipts: seq<Receipt>): (r: seq<Row>)
    requires AllFetched(s, receipts)
    ensures |r| == |receipts|
    ensures forall i :: 0 <= i < |r| ==>
              r[i] == Row(receipts[i].tool, receipts[i].version, receipts[i], receipts[i].compact + 1,
                          Fetched(s, receipts[i]).value)
  {
    seq(|receipts|, i requires 0 <= i < |receipts| =>
      Row(receipts[i].tool, receipts[i].version, receipts[i], receipts[i].compact + 1, Fetched(s, receipts[i]).value))
  }

  function SourcesOf(package: Package, p: Platform): Option<Sources> {
    var core := FirstAsset(package.coreAssets, p.Legacy());
    if core.None? || p !in package.files || p !in package.archives then None
    else
      Some(Sources(p, package.coreVersion, core.value.executable, package.files[p],
                   Dict(ArtifactPairs(Select(package.artifacts, p.Canonical()))), package.archives[p].members))
  }

  /** The receipts are exactly one core and the declared tools. */
  predicate CoversManifest(s: Sources, receipts: seq<Receipt>) {
    && (exists i :: 0 <= i < |receipts| && receipts[i].tool == CORE
                    && forall j :: 0 <= j < |receipts| && j != i ==> receipts[j].tool != CORE)
    && s.tools.Keys == Ids(receipts) - {(CORE, s.coreVersion)}
  }

  function Recovered(package: Package, p: Platform): Option<seq<Row>> {
    var sources := SourcesOf(package, p);
    if sources.None? then None
    else
      var tools := Select(package.artifacts, p.Canonical());
      var receipts := package.archives[p].envelope;
      if tools == [] || EnvelopeSize(receipts) > MAX_ENVELOPE || |receipts| != |tools| + 1 then None
      else if !AllFetched(sources.value, receipts) || !CoversManifest(sources.value, receipts) then None
      else Some(Rows(sources.value, receipts))
  }

  // -----------------------------------------------------------------------------
  // Reusing
  // -----------------------------------------------------------------------------

  predicate Lower(c: char) {
    'a' <= c <= 'z'
  }

  predicate Digit(c: char) {
    '0' <= c <= '9'
  }

  predicate SafeTool(tool: Tool) {
    tool != "" && Lower(tool[0])
    && forall i :: 0 < i < |tool| ==> Lower(tool[i]) || Digit(tool[i]) || tool[i] == '_' || tool[i] == '-'
  }

  predicate NameChar(c: char) {
    Lower(c) || 'A' <= c <= 'Z' || Digit(c) || c == '_' || c == '.' || c == '-'
  }

  predicate SafeName(name: string) {
    name != "" && (Lower(name[0]) || 'A' <= name[0] <= 'Z' || Digit(name[0]))
    && forall i :: 0 <= i < |name| ==> NameChar(name[i])
  }

  predicate Usable(row: Row, p: Platform) {
    && row.size <= MAX_RECEIPT && row.receipt.Matches(row.binary)
    && row.receipt.Id() == (row.tool, row.version) && row.receipt.target == Some(p)
    && SafeTool(row.receipt.tool) && SafeName(row.receipt.name)
  }

  function RowPairs(rows: seq<Row>): (r: seq<(Identity, Build)>)
    ensures |r| == |rows|
    ensures forall i :: 0 <= i < |r| ==> r[i] == ((rows[i].tool, rows[i].version), Build(rows[i].receipt, rows[i].binary))
  {
    seq(|rows|, i requires 0 <= i < |rows| =>
      ((rows[i].tool, rows[i].version), Build(rows[i].receipt, rows[i].binary)))
  }

  /** The builds of an index, by identity. */
  function Reusable(rows: seq<Row>, p: Platform): Option<map<Identity, Build>> {
    if |rows| > MAX_ROWS || (exists i :: 0 <= i < |rows| && !Usable(rows[i], p)) || !DistinctKeys(RowPairs(rows)) then None
    else Some(Dict(RowPairs(rows)))
  }
}
