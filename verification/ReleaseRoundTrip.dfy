/** Recovering a packaged release gives back the builds that went into it. */
module ReleaseRoundTrip {
  import opened Wrappers
  import opened Release
  import opened ReleasePackage

  // -----------------------------------------------------------------------------
  // What the release directory says about one platform
  // -----------------------------------------------------------------------------

  lemma {:induction false} OfMember(builds: seq<Build>, p: Platform, core: bool, b: Build)
    ensures b in Of(builds, p, core) <==> b in builds && Belongs(b, p, core)
  {
    hide Belongs;
    if builds != [] {
      var n := |builds| - 1;
      OfMember(builds[..n], p, core, b);
      assert builds == builds[..n] + [builds[n]];
    }
  }

  lemma OfAt(builds: seq<Build>, p: Platform, core: bool, i: nat)
    requires i < |Of(builds, p, core)|
    ensures Of(builds, p, core)[i] in builds && Belongs(Of(builds, p, core)[i], p, core)
  {
    OfMember(builds, p, core, Of(builds, p, core)[i]);
  }

  lemma {:induction false} StagedFiles(builds: seq<Build>, order: seq<Platform>, p: Platform)
    requires p in order && HasCore(builds, p)
    ensures p in FilesFor(builds, order) && FilesFor(builds, order)[p] == Of(builds, p, true)[0].binary
    ensures p in ArchivesFor(builds, order) && ArchivesFor(builds, order)[p] == ArchiveOf(builds, p)
  {
    hide Of, ArchiveOf;
    var n := |order| - 1;
    if order[n] != p {
      StagedFiles(builds, order[..n], p);
    }
  }

  lemma {:induction false} FirstAssetAppend(assets: seq<CoreAsset>, x: CoreAsset, target: string)
    ensures FirstAsset(assets + [x], target)
            == if FirstAsset(assets, target).Some? then FirstAsset(assets, target)
               else if x.target == target then Some(x) else None
  {
    if assets == [] {
      assert ([] + [x])[1..] == [];
    } else {
      assert (assets + [x])[1..] == assets[1..] + [x];
      FirstAssetAppend(assets[1..], x, target);
    }
  }

  lemma {:induction false} StagedCore(builds: seq<Build>, order: seq<Platform>, p: Platform)
    ensures FirstAsset(AssetsFor(builds, order), p.Legacy())
            == if p in order && HasCore(builds, p)
               then Some(CoreAsset(p.Legacy(), Of(builds, p, true)[0].receipt.blob)) else None
  {
    hide Of, FirstAsset, Platform.Legacy;
    if order == [] {
      NoAsset(p.Legacy());
    } else {
      var n := |order| - 1;
      var q := order[n];
      assert p in order <==> p in order[..n] || p == q;
      StagedCore(builds, order[..n], p);
      if HasCore(builds, q) {
        FirstAssetAppend(AssetsFor(builds, order[..n]),
                         CoreAsset(q.Legacy(), Of(builds, q, true)[0].receipt.blob), p.Legacy());
        if q != p {
          NamesAreDistinct(p, q);
        }
      } else {
        assert AssetsFor(builds, order) == AssetsFor(builds, order[..n]);
      }
    }
  }

  lemma NoArtifact(target: string)
    ensures Select([], target) == []
  {
  }

  lemma NoAsset(target: string)
    ensures FirstAsset([], target) == None
  {
  }

  lemma {:induction false} SelectConcat(a: seq<Artifact>, b: seq<Artifact>, target: string)
    ensures Select(a + b, target) == Select(a, target) + Select(b, target)
  {
    if b == [] {
      assert a + b == a;
    } else {
      var n := |b| - 1;
      assert (a + b)[..|a| + n] == a + b[..n];
      SelectConcat(a, b[..n], target);
    }
  }

  lemma {:induction false} SelectOwn(builds: seq<Build>, q: Platform, p: Platform)
    ensures Select(ArtifactsOf(builds, q), p.Canonical()) == if p == q then ArtifactsOf(builds, q) else []
  {
    hide Platform.Canonical;
    if builds != [] {
      var n := |builds| - 1;
      SelectOwn(builds[..n], q, p);
      assert ArtifactsOf(builds, q)[..n] == ArtifactsOf(builds[..n], q);
      if p != q {
        NamesAreDistinct(p, q);
      }
    }
  }

  lemma {:induction false} StagedTools(builds: seq<Build>, order: seq<Platform>, p: Platform)
    requires forall i, j :: 0 <= i < j < |order| ==> order[i] != order[j]
    ensures Select(ArtifactsFor(builds, order), p.Canonical())
            == if p in order && HasCore(builds, p) then ArtifactsOf(Of(builds, p, false), p) else []
  {
    hide Of, ArtifactsOf, Select, Platform.Canonical;
    if order == [] {
      NoArtifact(p.Canonical());
    } else {
      var n := |order| - 1;
      var q := order[n];
      assert p in order <==> p in order[..n] || p == q;
      StagedTools(builds, order[..n], p);
      if HasCore(builds, q) {
        SelectConcat(ArtifactsFor(builds, order[..n]), ArtifactsOf(Of(builds, q, false), q), p.Canonical());
        SelectOwn(Of(builds, q, false), q, p);
      } else {
        assert ArtifactsFor(builds, order) == ArtifactsFor(builds, order[..n]);
      }
    }
  }

  // -----------------------------------------------------------------------------
  // Identities within one platform
  // -----------------------------------------------------------------------------

  lemma {:induction false} OfDistinct(builds: seq<Build>, p: Platform, core: bool)
    requires DistinctBuilds(builds)
    ensures DistinctBuilds(Of(builds, p, core))
  {
    if builds != [] {
      var n := |builds| - 1;
      OfDistinct(builds[..n], p, core);
      var rest := Of(builds[..n], p, core);
      forall i | 0 <= i < |rest| ensures Key(rest[i]) != Key(builds[n]) {
        OfAt(builds[..n], p, core, i);
      }
    }
  }

  lemma PackedDistinct(builds: seq<Build>, p: Platform)
    requires DistinctBuilds(builds)
    ensures DistinctIds(Receipts(Packed(builds, p)))
  {
    hide Of, DistinctBuilds;
    OfDistinct(builds, p, true);
    OfDistinct(builds, p, false);
    var cores, tools := Of(builds, p, true), Of(builds, p, false);
    var packed := Packed(builds, p);
    forall i, j | 0 <= i < j < |packed| ensures packed[i].receipt.Id() != packed[j].receipt.Id() {
      PackedAt(builds, p, i);
      PackedAt(builds, p, j);
      KeysApart(cores, tools, i, j);
    }
  }

  lemma PackedAt(builds: seq<Build>, p: Platform, i: nat)
    requires i < |Packed(builds, p)|
    ensures Belongs(Packed(builds, p)[i], p, i < |Of(builds, p, true)|)
  {
    hide Of, Belongs;
    var cores := Of(builds, p, true);
    if i < |cores| {
      OfAt(builds, p, true, i);
    } else {
      OfAt(builds, p, false, i - |cores|);
    }
  }

  lemma KeysApart(cores: seq<Build>, tools: seq<Build>, i: nat, j: nat)
    requires DistinctBuilds(cores) && DistinctBuilds(tools) && i < j < |cores| + |tools|
    ensures j < |cores| ==> Key(cores[i]) != Key(cores[j])
    ensures i >= |cores| ==> Key(tools[i - |cores|]) != Key(tools[j - |cores|])
  {
  }

  /** All cores carry the packaged core version. */
  lemma {:induction false} FirstCore(builds: seq<Build>) returns (b: Build)
    requires exists c :: c in builds && c.receipt.tool == CORE
    ensures b in builds && b.receipt.tool == CORE && CoreVersion(builds) == b.receipt.version
  {
    if builds[0].receipt.tool == CORE {
      b := builds[0];
    } else {
      b := FirstCore(builds[1..]);
    }
  }

  lemma CoreVersionAgrees(builds: seq<Build>, p: Platform)
    requires OneCoreEach(builds) && CoresAgree(builds) && HasCore(builds, p)
    requires forall b :: b in builds ==> b.receipt.target.Some?
    ensures Of(builds, p, true)[0].receipt.version == CoreVersion(builds)
  {
    hide Of, CoreVersion;
    OfAt(builds, p, true, 0);
    var b := FirstCore(builds);
    var q := b.receipt.target.value;
    OfMember(builds, q, true, b);
    assert |Of(builds, q, true)| <= 1;
    assert b == Of(builds, q, true)[0];
  }

  // -----------------------------------------------------------------------------
  // Recovering one platform
  // -----------------------------------------------------------------------------

  /** An accepted build for `p` whose receipt is under the size caps. */
  predicate Fine(b: Build, p: Platform) {
    var r := b.receipt;
    && r.Matches(b.binary) && r.target == Some(p) && (r.tool in TOOLS || r.tool == CORE)
    && r.name == ExecutableName(r.tool, p) && r.profile == "release"
    && r.compact < r.spaced <= MAX_RECEIPT
  }

  /** One core and tools with different identities. */
  predicate Platformed(core: Build, tools: seq<Build>, p: Platform) {
    && Fine(core, p) && core.receipt.tool == CORE
    && (forall k :: 0 <= k < |tools| ==> Fine(tools[k], p) && tools[k].receipt.tool != CORE)
    && DistinctBuilds(tools)
  }

  function Holding(core: Build, tools: seq<Build>, p: Platform): Sources {
    Sources(p, core.receipt.version, core.receipt.blob, core.binary,
            Dict(ArtifactPairs(ArtifactsOf(tools, p))), Dict(MemberPairs(tools)))
  }

  lemma ToolFetched(core: Build, tools: seq<Build>, p: Platform, k: nat)
    requires Platformed(core, tools, p) && k < |tools|
    ensures Fetched(Holding(core, tools, p), tools[k].receipt) == Some(tools[k].binary)
  {
    hide Dict, ExecutableName;
    var artifacts, members := ArtifactPairs(ArtifactsOf(tools, p)), MemberPairs(tools);
    ArtifactKeys(core, tools, p);
    forall i, j | 0 <= i < j < |tools| ensures members[i].0 != members[j].0 {
      assert Key(tools[i]) != Key(tools[j]);
    }
    DictAt(artifacts, k);
    DictAt(members, k);
  }

  lemma CoreFetched(core: Build, tools: seq<Build>, p: Platform)
    requires Platformed(core, tools, p)
    ensures Fetched(Holding(core, tools, p), core.receipt) == Some(core.binary)
  {
    hide Dict, ExecutableName;
  }

  lemma PlatformDistinct(core: Build, tools: seq<Build>, p: Platform)
    requires Platformed(core, tools, p)
    ensures DistinctIds(Receipts([core] + tools))
  {
    hide ExecutableName;
    var all := [core] + tools;
    forall i, j | 0 <= i < j < |all| ensures all[i].receipt.Id() != all[j].receipt.Id() {
      if i > 0 {
        assert Key(tools[i - 1]) != Key(tools[j - 1]);
      }
    }
  }

  lemma AllAreFetched(core: Build, tools: seq<Build>, p: Platform)
    requires Platformed(core, tools, p)
    ensures AllFetched(Holding(core, tools, p), Receipts([core] + tools))
    ensures forall i :: 0 <= i <= |tools| ==>
              Fetched(Holding(core, tools, p), ([core] + tools)[i].receipt) == Some(([core] + tools)[i].binary)
  {
    hide Fetched, Holding, Platformed, DistinctIds;
    var all := [core] + tools;
    PlatformDistinct(core, tools, p);
    CoreFetched(core, tools, p);
    forall i | 0 < i <= |tools| ensures Fetched(Holding(core, tools, p), all[i].receipt) == Some(all[i].binary) {
      ToolFetched(core, tools, p, i - 1);
    }
  }

  lemma ArtifactKeys(core: Build, tools: seq<Build>, p: Platform)
    requires Platformed(core, tools, p)
    ensures DistinctKeys(ArtifactPairs(ArtifactsOf(tools, p)))
  {
    hide ExecutableName;
    var artifacts := ArtifactPairs(ArtifactsOf(tools, p));
    forall i, j | 0 <= i < j < |tools| ensures artifacts[i].0 != artifacts[j].0 {
      assert Key(tools[i]) != Key(tools[j]);
    }
  }

  lemma ToolIsDeclared(core: Build, tools: seq<Build>, p: Platform, k: nat)
    requires Platformed(core, tools, p) && k < |tools|
    ensures tools[k].receipt.Id() in Holding(core, tools, p).tools
    ensures tools[k].receipt.Id() != (CORE, core.receipt.version)
  {
    hide Dict, ExecutableName, DistinctKeys;
    ArtifactKeys(core, tools, p);
    DictAt(ArtifactPairs(ArtifactsOf(tools, p)), k);
  }

  lemma DeclaredIsTool(core: Build, tools: seq<Build>, p: Platform, id: Identity) returns (k: nat)
    requires id in Holding(core, tools, p).tools
    ensures k < |tools| && tools[k].receipt.Id() == id
  {
    hide Dict;
    k := DictKey(ArtifactPairs(ArtifactsOf(tools, p)), id);
  }

  lemma {:induction false} IdsAt(receipts: seq<Receipt>, i: nat)
    requires i < |receipts|
    ensures receipts[i].Id() in Ids(receipts)
  {
    if i < |receipts| - 1 {
      IdsAt(receipts[..|receipts| - 1], i);
    }
  }

  lemma {:induction false} IdsFrom(receipts: seq<Receipt>, id: Identity) returns (i: nat)
    requires id in Ids(receipts)
    ensures i < |receipts| && receipts[i].Id() == id
  {
    var n := |receipts| - 1;
    if receipts[n].Id() == id {
      i := n;
    } else {
      i := IdsFrom(receipts[..n], id);
    }
  }

  lemma DeclaredTools(core: Build, tools: seq<Build>, p: Platform, id: Identity)
    requires Platformed(core, tools, p)
    ensures id in Holding(core, tools, p).tools
            <==> id in Ids(Receipts([core] + tools)) && id != (CORE, core.receipt.version)
  {
    hide Ids, Holding, Platformed;
    var receipts := Receipts([core] + tools);
    PlatformCore(core, tools, p);
    if id in Holding(core, tools, p).tools {
      var k := DeclaredIsTool(core, tools, p, id);
      ToolIsDeclared(core, tools, p, k);
      IdsAt(receipts, k + 1);
    } else if id in Ids(receipts) {
      var i := IdsFrom(receipts, id);
      if i > 0 {
        ToolIsDeclared(core, tools, p, i - 1);
      }
    }
  }

  lemma PlatformCore(core: Build, tools: seq<Build>, p: Platform)
    requires Platformed(core, tools, p)
    ensures core.receipt.tool == CORE
  {
  }

  lemma ManifestCovered(core: Build, tools: seq<Build>, p: Platform)
    requires Platformed(core, tools, p)
    ensures CoversManifest(Holding(core, tools, p), Receipts([core] + tools))
  {
    hide Dict, Ids, Platformed, ArtifactsOf, ArtifactPairs, MemberPairs;
    forall id: Identity ensures id in Holding(core, tools, p).tools
                                <==> id in Ids(Receipts([core] + tools)) && id != (CORE, core.receipt.version)
    {
      DeclaredTools(core, tools, p, id);
    }
    OnlyCore(core, tools, p);
  }

  lemma OnlyCore(core: Build, tools: seq<Build>, p: Platform)
    requires Platformed(core, tools, p)
    ensures var receipts := Receipts([core] + tools);
            receipts[0].tool == CORE && forall j :: 0 <= j < |receipts| && j != 0 ==> receipts[j].tool != CORE
  {
    hide Fine, DistinctBuilds;
  }

  lemma ToolsAreSafe(tool: Tool)
    requires tool in TOOLS || tool == CORE
    ensures SafeTool(tool)
  {
  }

  lemma {:induction false} NamesAreSafe(tool: Tool, p: Platform)
    requires tool in TOOLS || tool == CORE
    ensures SafeName(ExecutableName(tool, p))
  {
    ToolsAreSafe(tool);
    var name := ExecutableName(tool, p);
    assert name[0] == 'p';
    assert forall i :: 0 <= i < |"porthub-"| ==> NameChar("porthub-"[i]);
    assert forall i :: 0 <= i < |"porthub"| ==> NameChar("porthub"[i]);
    assert forall i :: 0 <= i < |".exe"| ==> NameChar(".exe"[i]);
    assert forall i :: 0 <= i < |tool| ==> NameChar(tool[i]);
  }

  function BuildPairs(builds: seq<Build>): (r: seq<(Identity, Build)>)
    ensures |r| == |builds| && forall i :: 0 <= i < |r| ==> r[i] == (builds[i].receipt.Id(), builds[i])
  {
    seq(|builds|, i requires 0 <= i < |builds| => (builds[i].receipt.Id(), builds[i]))
  }

  /** Rows recovered for one platform are accepted for reuse, build by build. */
  lemma RowsReusable(core: Build, tools: seq<Build>, p: Platform)
    requires Platformed(core, tools, p) && |tools| <= MAX_TOOLS
    requires AllFetched(Holding(core, tools, p), Receipts([core] + tools))
    ensures Reusable(Rows(Holding(core, tools, p), Receipts([core] + tools)), p)
            == Some(Dict(BuildPairs([core] + tools)))
  {
    hide Fetched, Holding, ExecutableName, Dict, SafeTool, SafeName;
    var all := [core] + tools;
    var rows := Rows(Holding(core, tools, p), Receipts(all));
    AllAreFetched(core, tools, p);
    forall i | 0 <= i < |rows| ensures Usable(rows[i], p) {
      assert Fine(all[i], p);
      ToolsAreSafe(all[i].receipt.tool);
      NamesAreSafe(all[i].receipt.tool, p);
    }
    PlatformDistinct(core, tools, p);
    assert RowPairs(rows) == BuildPairs(all);
    forall i, j | 0 <= i < j < |rows| ensures RowPairs(rows)[i].0 != RowPairs(rows)[j].0 {
      assert Receipts(all)[i].Id() != Receipts(all)[j].Id();
    }
  }

  // -----------------------------------------------------------------------------
  // The round trip
  // -----------------------------------------------------------------------------

  /** The receipts of the platform's builds are under the size caps. */
  ghost predicate Capped(builds: seq<Build>, p: Platform) {
    forall b :: b in builds && b.receipt.target == Some(p) ==> b.receipt.compact < b.receipt.spaced <= MAX_RECEIPT
  }

  lemma AcceptedPlatform(entries: seq<Entry>, verifyOnly: bool, p: Platform)
    requires Accepted(entries, verifyOnly) && HasCore(Builds(entries), p) && Capped(Builds(entries), p)
    ensures var builds := Builds(entries);
            && Of(builds, p, true) == [Of(builds, p, true)[0]]
            && Platformed(Of(builds, p, true)[0], Of(builds, p, false), p)
            && Of(builds, p, true)[0].receipt.version == CoreVersion(builds)
            && 0 < |Of(builds, p, false)| <= MAX_TOOLS
  {
    hide Of, ExecutableName, CoreVersion, Complete, TotalSize, EnvelopeSize, DistinctBuilds;
    var builds := Builds(entries);
    var cores, tools := Of(builds, p, true), Of(builds, p, false);
    forall b | b in builds ensures b.receipt.target.Some? && (b.receipt.target == Some(p) ==> Fine(b, p)) {
      var i :| 0 <= i < |entries| && entries[i].build == b;
      assert Admissible(entries[i]);
    }
    CoreVersionAgrees(builds, p);
    OfDistinct(builds, p, false);
    assert |cores| <= 1 && Small(builds, p);
    OfAt(builds, p, true, 0);
    forall k | 0 <= k < |tools| ensures Fine(tools[k], p) && tools[k].receipt.tool != CORE {
      OfAt(builds, p, false, k);
    }
  }

  lemma OrderIsComplete(p: Platform)
    ensures p in ORDER
  {
    assert ORDER[0] == DarwinArm64 && ORDER[1] == WindowsArm64 && ORDER[2] == LinuxArm64 && ORDER[3] == LinuxArm;
    assert ORDER[4] == LinuxArmv7 && ORDER[5] == WindowsX86 && ORDER[6] == LinuxX86 && ORDER[7] == DarwinX64;
    assert ORDER[8] == WindowsX64 && ORDER[9] == LinuxX64;
  }

  /** The release directory holds exactly the platform's builds. */
  lemma PackageHolds(builds: seq<Build>, v: Version, p: Platform)
    requires HasCore(builds, p) && Of(builds, p, true)[0].receipt.version == v
    requires Of(builds, p, true) == [Of(builds, p, true)[0]]
    ensures var pkg := Staged(builds, v, ORDER);
            var core, tools := Of(builds, p, true)[0], Of(builds, p, false);
            && SourcesOf(pkg, p) == Some(Holding(core, tools, p))
            && Select(pkg.artifacts, p.Canonical()) == ArtifactsOf(tools, p)
            && p in pkg.archives && pkg.archives[p].envelope == Receipts([core] + tools)
  {
    hide Of, AssetsFor, ArtifactsFor, FilesFor, ArchivesFor, ArtifactsOf, Dict, FirstAsset, Select, Platform.Legacy, Platform.Canonical;
    OrderIsComplete(p);
    StagedFiles(builds, ORDER, p);
    StagedCore(builds, ORDER, p);
    StagedTools(builds, ORDER, p);
  }

  /**
   * Every accepted package, recovered for any of its platforms and read back, yields
   * exactly the builds that were packaged for that platform, by identity.
   */
  lemma RecoveryInvertsPackaging(entries: seq<Entry>, verifyOnly: bool, fits: bool, p: Platform)
    requires Packaged(entries, verifyOnly, fits).Some?
    requires HasCore(Builds(entries), p) && Capped(Builds(entries), p)
    ensures var rows := Recovered(Packaged(entries, verifyOnly, fits).value, p);
            && rows.Some? && |rows.value| <= MAX_ROWS
            && Reusable(rows.value, p) == Some(Dict(BuildPairs(Packed(Builds(entries), p))))
  {
    hide Of, Staged, ArtifactsOf, Dict, Select, SourcesOf, Holding, Accepted, CoversManifest, AllFetched, Reusable;
    var builds := Builds(entries);
    AcceptedPlatform(entries, verifyOnly, p);
    var core, tools := Of(builds, p, true)[0], Of(builds, p, false);
    assert EnvelopeSize(Receipts(Packed(builds, p))) <= MAX_ENVELOPE by { SmallEnvelope(entries, verifyOnly, p); }
    PackageHolds(builds, CoreVersion(builds), p);
    AllAreFetched(core, tools, p);
    ManifestCovered(core, tools, p);
    RowsReusable(core, tools, p);
  }

  lemma SmallEnvelope(entries: seq<Entry>, verifyOnly: bool, p: Platform)
    requires Accepted(entries, verifyOnly) && HasCore(Builds(entries), p)
    ensures EnvelopeSize(Receipts(Packed(Builds(entries), p))) <= MAX_ENVELOPE
  {
    hide Of, EnvelopeSize, Complete, CoresAgree, OneCoreEach, DistinctBuilds;
    assert Small(Builds(entries), p);
  }

  /** The recovered map holds a build under its identity exactly when it was packaged for the platform. */
  lemma RecoveredIffPackaged(builds: seq<Build>, p: Platform, b: Build)
    requires DistinctBuilds(builds)
    ensures var reusable := Dict(BuildPairs(Packed(builds, p)));
            (b.receipt.Id() in reusable && reusable[b.receipt.Id()] == b)
            <==> (b in builds && b.receipt.target == Some(p))
  {
    hide Of, Dict, DistinctBuilds;
    var packed := Packed(builds, p);
    var pairs := BuildPairs(packed);
    PackedDistinct(builds, p);
    OfMember(builds, p, true, b);
    OfMember(builds, p, false, b);
    assert b in packed <==> b in Of(builds, p, true) || b in Of(builds, p, false);
    forall i, j | 0 <= i < j < |pairs| ensures pairs[i].0 != pairs[j].0 {
      assert Receipts(packed)[i].Id() != Receipts(packed)[j].Id();
    }
    if b in packed {
      var i :| 0 <= i < |packed| && packed[i] == b;
      DictAt(pairs, i);
    }
    if b.receipt.Id() in Dict(pairs) {
      var i := DictKey(pairs, b.receipt.Id());
      DictAt(pairs, i);
    }
  }

  /**
   * The packager limits the receipt file, the recovery limits a wider layout of the
   * same receipt: a packaged receipt above the limit in that layout is never recovered.
   */
  lemma WideReceiptIsNotRecovered(entries: seq<Entry>, verifyOnly: bool, fits: bool, p: Platform, i: nat)
    requires Packaged(entries, verifyOnly, fits).Some? && HasCore(Builds(entries), p)
    requires i < |Packed(Builds(entries), p)| && Packed(Builds(entries), p)[i].receipt.spaced > MAX_RECEIPT
    ensures Recovered(Packaged(entries, verifyOnly, fits).value, p) == None
  {
    hide Of, Accepted, AssetsFor, ArtifactsFor, FilesFor, ArchivesFor, FirstAsset, Select, Dict, CoversManifest, HasCore;
    var pkg := Packaged(entries, verifyOnly, fits).value;
    OrderIsComplete(p);
    StagedFiles(Builds(entries), ORDER, p);
    if SourcesOf(pkg, p).Some? {
      assert pkg.archives[p].envelope[i].spaced > MAX_RECEIPT;
      assert Fetched(SourcesOf(pkg, p).value, pkg.archives[p].envelope[i]).None?;
    }
  }
}
