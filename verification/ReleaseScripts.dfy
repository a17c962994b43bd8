/** The packaging, recovery and reuse scripts as the loops that fill their collections. */
module ReleaseScripts {
  import opened Wrappers
  import opened Release
  import opened ReleasePackage
  import opened ReleaseRoundTrip

  lemma {:induction false} OfPrefix(builds: seq<Build>, i: nat, p: Platform, core: bool)
    requires i <= |builds|
    ensures |Of(builds[..i], p, core)| <= |Of(builds, p, core)|
  {
    hide Belongs;
    if i < |builds| {
      var n := |builds| - 1;
      OfPrefix(builds[..n], i, p, core);
      assert builds[..n][..i] == builds[..i];
    } else {
      assert builds[..i] == builds;
    }
  }

  lemma OfStep(builds: seq<Build>, i: nat, p: Platform, core: bool)
    requires i < |builds|
    ensures Of(builds[..i + 1], p, core)
            == Of(builds[..i], p, core) + if Belongs(builds[i], p, core) then [builds[i]] else []
  {
    hide Belongs;
    assert builds[..i + 1][..i] == builds[..i];
  }

  /** Checks every input and that no tool version is given twice for a platform. */
  method CheckEntries(entries: seq<Entry>) returns (ok: bool)
    ensures ok <==> (forall i :: 0 <= i < |entries| ==> Admissible(entries[i])) && DistinctBuilds(Builds(entries))
  {
    hide Admissible;
    var identities: set<(Option<Platform>, Tool, Version)> := {};
    var builds := Builds(entries);
    for i := 0 to |entries|
      invariant forall j :: 0 <= j < i ==> Admissible(entries[j])
      invariant forall j :: 0 <= j < i ==> Key(builds[j]) in identities
      invariant forall k :: k in identities ==> exists j :: 0 <= j < i && Key(builds[j]) == k
      invariant forall j, k :: 0 <= j < k < i ==> Key(builds[j]) != Key(builds[k])
    {
      if !Admissible(entries[i]) {
        return false;
      }
      if Key(builds[i]) in identities {
        return false;
      }
      identities := identities + {Key(builds[i])};
    }
    return true;
  }

  ghost predicate Grouped(builds: seq<Build>, cores: map<Platform, Build>, groups: map<Platform, seq<Build>>) {
    forall p: Platform ::
      && (p in cores <==> HasCore(builds, p)) && (p in cores ==> cores[p] == Of(builds, p, true)[0])
      && (p in groups <==> Of(builds, p, false) != []) && (p in groups ==> groups[p] == Of(builds, p, false))
  }

  lemma GroupedStep(
      builds: seq<Build>, i: nat, cores: map<Platform, Build>, groups: map<Platform, seq<Build>>,
      cores': map<Platform, Build>, groups': map<Platform, seq<Build>>)
    requires i < |builds| && builds[i].receipt.target.Some?
    requires Grouped(builds[..i], cores, groups) && OneCoreEach(builds[..i])
    requires var b := builds[i]; var q := b.receipt.target.value;
             if b.receipt.tool == CORE then q !in cores && cores' == cores[q := b] && groups' == groups
             else cores' == cores && groups' == groups[q := (if q in groups then groups[q] else []) + [b]]
    ensures Grouped(builds[..i + 1], cores', groups') && OneCoreEach(builds[..i + 1])
  {
    hide Of;
    var q := builds[i].receipt.target.value;
    forall p: Platform
      ensures |Of(builds[..i + 1], p, true)| <= 1
      ensures (p in cores' <==> HasCore(builds[..i + 1], p)) && (p in cores' ==> cores'[p] == Of(builds[..i + 1], p, true)[0])
      ensures (p in groups' <==> Of(builds[..i + 1], p, false) != []) && (p in groups' ==> groups'[p] == Of(builds[..i + 1], p, false))
    {
      OfStep(builds, i, p, true);
      OfStep(builds, i, p, false);
    }
  }

  method Group(builds: seq<Build>)
    returns (ok: bool, cores: map<Platform, Build>, groups: map<Platform, seq<Build>>)
    requires forall i :: 0 <= i < |builds| ==> builds[i].receipt.target.Some?
    ensures ok == OneCoreEach(builds)
    ensures ok ==> Grouped(builds, cores, groups)
  {
    hide Of, Grouped, OneCoreEach;
    cores, groups := map[], map[];
    GroupedNothing();
    assert builds[..0] == [];
    for i := 0 to |builds|
      invariant Grouped(builds[..i], cores, groups) && OneCoreEach(builds[..i])
    {
      var b := builds[i];
      var target := b.receipt.target.value;
      if b.receipt.tool == CORE {
        if target in cores {
          SecondCore(builds, i, cores, groups);
          return false, cores, groups;
        }
        GroupedStep(builds, i, cores, groups, cores[target := b], groups);
        cores := cores[target := b];
      } else {
        var grown := groups[target := (if target in groups then groups[target] else []) + [b]];
        GroupedStep(builds, i, cores, groups, cores, grown);
        groups := grown;
      }
    }
    assert builds[..|builds|] == builds;
    return true, cores, groups;
  }

  lemma GroupedNothing()
    ensures Grouped([], map[], map[]) && OneCoreEach([])
  {
  }

  lemma SecondCore(builds: seq<Build>, i: nat, cores: map<Platform, Build>, groups: map<Platform, seq<Build>>)
    requires i < |builds| && Grouped(builds[..i], cores, groups)
    requires builds[i].receipt.target.Some? && builds[i].receipt.tool == CORE
    requires builds[i].receipt.target.value in cores
    ensures !OneCoreEach(builds)
  {
    hide Of;
    var p := builds[i].receipt.target.value;
    OfStep(builds, i, p, true);
    OfPrefix(builds, i + 1, p, true);
    assert |Of(builds, p, true)| > 1;
  }

  lemma OneElement<T>(s: set<T>)
    ensures |s| == 1 <==> s != {} && forall x, y :: x in s && y in s ==> x == y
  {
    if s != {} {
      var x :| x in s;
      if |s| == 1 {
        assert |s - {x}| == 0;
        assert s == {x};
      }
      if forall y :: y in s ==> y == x {
        assert s == {x};
      }
    }
  }

  function Versions(cores: map<Platform, Build>): set<Version> {
    set p: Platform | p in cores :: cores[p].receipt.version
  }

  function Revisions(cores: map<Platform, Build>): set<string> {
    set p: Platform | p in cores :: cores[p].receipt.revision
  }

  lemma OneVersion(cores: map<Platform, Build>)
    ensures |Versions(cores)| == 1
            <==> cores != map[] && forall p, q :: p in cores && q in cores ==> cores[p].receipt.version == cores[q].receipt.version
  {
    OneElement(Versions(cores));
    assert forall p :: p in cores ==> cores[p].receipt.version in Versions(cores);
  }

  lemma OneRevision(cores: map<Platform, Build>)
    ensures |Revisions(cores)| == 1
            <==> cores != map[] && forall p, q :: p in cores && q in cores ==> cores[p].receipt.revision == cores[q].receipt.revision
  {
    OneElement(Revisions(cores));
    assert forall p :: p in cores ==> cores[p].receipt.revision in Revisions(cores);
  }

  method CheckCores(ghost builds: seq<Build>, cores: map<Platform, Build>, ghost groups: map<Platform, seq<Build>>)
    returns (ok: bool)
    requires Grouped(builds, cores, groups)
    ensures ok == CoresAgree(builds)
  {
    hide Of, Versions, Revisions;
    OneVersion(cores);
    OneRevision(cores);
    ok := |Versions(cores)| == 1 && |Revisions(cores)| == 1;
    assert cores != map[] <==> exists p: Platform :: HasCore(builds, p) by {
      if p :| p in cores {
        assert HasCore(builds, p);
      }
    }
  }

  function ToolNames(builds: seq<Build>): set<Tool> {
    set b | b in builds :: b.receipt.tool
  }

  lemma RequiredNames(builds: seq<Build>)
    ensures REQUIRED <= ToolNames(builds) <==> HasRequired(builds)
  {
    if REQUIRED <= ToolNames(builds) {
      forall t | t in REQUIRED ensures exists b :: b in builds && b.receipt.tool == t {
        assert t in ToolNames(builds);
      }
    }
  }

  method CheckCoverage(
      ghost builds: seq<Build>, cores: map<Platform, Build>, groups: map<Platform, seq<Build>>, verifyOnly: bool)
    returns (ok: bool)
    requires Grouped(builds, cores, groups)
    ensures ok == (ToolsWithCores(builds) && (verifyOnly || Complete(builds)))
  {
    hide Of, ToolNames, HasRequired;
    if exists p: Platform :: (p in cores) != (p in groups) {
      return false;
    }
    if verifyOnly {
      return true;
    }
    if exists p: Platform :: p !in cores {
      return false;
    }
    ok := true;
    for i := 0 to |ORDER|
      invariant forall j :: 0 <= j < i ==> HasRequired(groups[ORDER[j]])
    {
      RequiredNames(groups[ORDER[i]]);
      if !(REQUIRED <= ToolNames(groups[ORDER[i]])) {
        return false;
      }
    }
    forall p: Platform ensures HasRequired(Of(builds, p, false)) {
      OrderIsComplete(p);
    }
  }

  lemma StageStep(builds: seq<Build>, i: nat)
    requires i < |ORDER|
    ensures var p, now, next := ORDER[i], ORDER[..i], ORDER[..i + 1];
            if HasCore(builds, p) then
              && AssetsFor(builds, next)
                 == AssetsFor(builds, now) + [CoreAsset(p.Legacy(), Of(builds, p, true)[0].receipt.blob)]
              && ArtifactsFor(builds, next) == ArtifactsFor(builds, now) + ArtifactsOf(Of(builds, p, false), p)
              && FilesFor(builds, next) == FilesFor(builds, now)[p := Of(builds, p, true)[0].binary]
              && ArchivesFor(builds, next) == ArchivesFor(builds, now)[p := ArchiveOf(builds, p)]
            else
              && AssetsFor(builds, next) == AssetsFor(builds, now)
              && ArtifactsFor(builds, next) == ArtifactsFor(builds, now)
              && FilesFor(builds, next) == FilesFor(builds, now)
              && ArchivesFor(builds, next) == ArchivesFor(builds, now)
  {
    hide Of, ArtifactsOf, ArchiveOf, HasCore, Platform.Legacy;
    assert ORDER[..i + 1][..i] == ORDER[..i] && ORDER[..i + 1][i] == ORDER[i];
    assert AssetsFor(builds, ORDER[..i]) + [] == AssetsFor(builds, ORDER[..i]);
    assert ArtifactsFor(builds, ORDER[..i]) + [] == ArtifactsFor(builds, ORDER[..i]);
  }

  lemma NothingStaged(builds: seq<Build>)
    ensures AssetsFor(builds, []) == [] && ArtifactsFor(builds, []) == []
    ensures FilesFor(builds, []) == map[] && ArchivesFor(builds, []) == map[]
  {
  }

  /** Writes one platform after the other. */
  method Stage(builds: seq<Build>, cores: map<Platform, Build>, groups: map<Platform, seq<Build>>, version: Version)
    returns (r: Option<Package>)
    requires Grouped(builds, cores, groups) && OneCoreEach(builds) && ToolsWithCores(builds)
    ensures r == if forall p: Platform :: Small(builds, p) then Some(Staged(builds, version, ORDER)) else None
  {
    hide Of, AssetsFor, ArtifactsFor, FilesFor, ArchivesFor, ArchiveOf, ArtifactsOf, Small, HasCore, Grouped,
         OneCoreEach, ToolsWithCores, Receipts, MemberPairs, TotalSize, EnvelopeSize, Dict, Platform.Legacy;
    var assets: seq<CoreAsset>, artifacts: seq<Artifact> := [], [];
    var files: map<Platform, Blob>, archives: map<Platform, Archive> := map[], map[];
    NothingStaged(builds);
    assert ORDER[..0] == [];
    for i := 0 to |ORDER|
      invariant assets == AssetsFor(builds, ORDER[..i]) && artifacts == ArtifactsFor(builds, ORDER[..i])
      invariant files == FilesFor(builds, ORDER[..i]) && archives == ArchivesFor(builds, ORDER[..i])
      invariant forall j :: 0 <= j < i ==> Small(builds, ORDER[j])
    {
      var p := ORDER[i];
      StageStep(builds, i);
      PlatformIs(builds, cores, groups, p);
      if p in cores {
        var core, tools := cores[p], groups[p];
        var receipts := Receipts([core] + tools);
        if |tools| > MAX_TOOLS || TotalSize(tools) > MAX_PLATFORM || EnvelopeSize(receipts) > MAX_ENVELOPE {
          return None;
        }
        assets := assets + [CoreAsset(p.Legacy(), core.receipt.blob)];
        artifacts := artifacts + ArtifactsOf(tools, p);
        files := files[p := core.binary];
        archives := archives[p := Archive(receipts, Dict(MemberPairs(tools)))];
      }
    }
    assert ORDER[..|ORDER|] == ORDER;
    forall p: Platform ensures Small(builds, p) {
      OrderIsComplete(p);
    }
    return Some(Package(version, assets, artifacts, files, archives));
  }

  /** What the two dictionaries hold for a platform decides what is written for it. */
  lemma PlatformIs(builds: seq<Build>, cores: map<Platform, Build>, groups: map<Platform, seq<Build>>, p: Platform)
    requires Grouped(builds, cores, groups) && OneCoreEach(builds) && ToolsWithCores(builds)
    ensures p in cores <==> HasCore(builds, p)
    ensures p !in cores ==> Small(builds, p)
    ensures p in cores ==>
              && p in groups && cores[p] == Of(builds, p, true)[0] && groups[p] == Of(builds, p, false)
              && ArchiveOf(builds, p) == Archive(Receipts([cores[p]] + groups[p]), Dict(MemberPairs(groups[p])))
              && (Small(builds, p) <==>
                    && |groups[p]| <= MAX_TOOLS && TotalSize(groups[p]) <= MAX_PLATFORM
                    && EnvelopeSize(Receipts([cores[p]] + groups[p])) <= MAX_ENVELOPE)
  {
    hide Of, Receipts, MemberPairs, TotalSize, EnvelopeSize, Dict;
    assert |Of(builds, p, true)| <= 1;
    if p in cores {
      assert Packed(builds, p) == [cores[p]] + groups[p];
    }
  }

  /** Packages the entries, or refuses them all. */
  method PackageRelease(entries: seq<Entry>, verifyOnly: bool, fits: bool) returns (r: Option<Package>)
    ensures r == Packaged(entries, verifyOnly, fits)
  {
    hide Admissible, DistinctBuilds, OneCoreEach, CoresAgree, ToolsWithCores, Complete, Small, Staged, Grouped;
    var ok := CheckEntries(entries);
    if !ok {
      return None;
    }
    var builds := Builds(entries);
    forall i | 0 <= i < |builds| ensures builds[i].receipt.target.Some? {
      AdmissibleTarget(entries[i]);
    }
    var one, cores, groups := Group(builds);
    if !one {
      return None;
    }
    var agree := CheckCores(builds, cores, groups);
    if !agree {
      return None;
    }
    var covered := CheckCoverage(builds, cores, groups, verifyOnly);
    if !covered {
      return None;
    }
    var staged := Stage(builds, cores, groups, CoreVersion(builds));
    return if fits then staged else None;
  }

  lemma AdmissibleTarget(e: Entry)
    requires Admissible(e)
    ensures e.build.receipt.target.Some?
  {
  }

  // -----------------------------------------------------------------------------
  // Recovery and reuse
  // -----------------------------------------------------------------------------

  lemma IdsStep(receipts: seq<Receipt>, i: nat)
    requires i < |receipts|
    ensures Ids(receipts[..i + 1]) == Ids(receipts[..i]) + {receipts[i].Id()}
  {
    assert receipts[..i + 1][..i] == receipts[..i];
  }

  lemma SeenTwice(receipts: seq<Receipt>, i: nat)
    requires i < |receipts|
    ensures receipts[i].Id() in Ids(receipts[..i]) ==> !DistinctIds(receipts)
    ensures DistinctIds(receipts[..i]) && receipts[i].Id() !in Ids(receipts[..i]) ==> DistinctIds(receipts[..i + 1])
  {
    hide Ids;
    if receipts[i].Id() in Ids(receipts[..i]) {
      var j := IdsFrom(receipts[..i], receipts[i].Id());
      assert receipts[j].Id() == receipts[i].Id();
    } else if DistinctIds(receipts[..i]) {
      forall j | 0 <= j < i ensures receipts[j].Id() != receipts[i].Id() {
        IdsAt(receipts[..i], j);
      }
      forall j, k | 0 <= j < k < i ensures receipts[j].Id() != receipts[k].Id() {
        assert receipts[..i][j].Id() != receipts[..i][k].Id();
      }
    }
  }

  /** The receipt loop: fetches every binary, refusing duplicates and mismatches. */
  method FetchAll(s: Sources, receipts: seq<Receipt>) returns (r: Option<(seq<Row>, set<Identity>)>)
    ensures r.Some? <==> AllFetched(s, receipts)
    ensures r.Some? ==> r.value == (Rows(s, receipts), Ids(receipts))
  {
    hide Fetched, Ids, DistinctIds;
    var seen: set<Identity> := {};
    var rows: seq<Row> := [];
    assert receipts[..0] == [];
    NoIds();
    for i := 0 to |receipts|
      invariant seen == Ids(receipts[..i]) && DistinctIds(receipts[..i])
      invariant forall j :: 0 <= j < i ==> Fetched(s, receipts[j]).Some?
      invariant |rows| == i && forall j :: 0 <= j < i ==>
                  rows[j] == Row(receipts[j].tool, receipts[j].version, receipts[j], receipts[j].compact + 1,
                                 Fetched(s, receipts[j]).value)
    {
      IdsStep(receipts, i);
      SeenTwice(receipts, i);
      var receipt := receipts[i];
      if receipt.Id() in seen {
        return None;
      }
      seen := seen + {receipt.Id()};
      var binary := Fetched(s, receipt);
      if binary.None? {
        return None;
      }
      rows := rows + [Row(receipt.tool, receipt.version, receipt, receipt.compact + 1, binary.value)];
    }
    assert receipts[..|receipts|] == receipts;
    assert rows == Rows(s, receipts);
    return Some((rows, seen));
  }

  lemma NoIds()
    ensures Ids([]) == {} && DistinctIds([])
  {
  }

  lemma CoreIds(receipts: seq<Receipt>)
    requires DistinctIds(receipts)
    ensures |set id | id in Ids(receipts) && id.0 == CORE| == 1
            <==> exists i :: 0 <= i < |receipts| && receipts[i].tool == CORE
                             && forall j :: 0 <= j < |receipts| && j != i ==> receipts[j].tool != CORE
  {
    hide Ids;
    var cores := set id | id in Ids(receipts) && id.0 == CORE;
    OneElement(cores);
    forall i | 0 <= i < |receipts| ensures receipts[i].tool == CORE <==> receipts[i].Id() in cores {
      IdsAt(receipts, i);
    }
    if |cores| == 1 {
      var id :| id in cores;
      var i := IdsFrom(receipts, id);
      assert receipts[i].tool == CORE && forall j :: 0 <= j < |receipts| && j != i ==> receipts[j].tool != CORE;
    }
    if i :| 0 <= i < |receipts| && receipts[i].tool == CORE
            && forall j :: 0 <= j < |receipts| && j != i ==> receipts[j].tool != CORE {
      forall id | id in cores ensures id == receipts[i].Id() {
        var k := IdsFrom(receipts, id);
      }
    }
  }

  method Recover(package: Package, p: Platform) returns (r: Option<seq<Row>>)
    ensures r == Recovered(package, p)
  {
    hide AllFetched, Ids, Select, FirstAsset, Dict, EnvelopeSize, Rows;
    var sources := SourcesOf(package, p);
    if sources.None? {
      return None;
    }
    var tools := Select(package.artifacts, p.Canonical());
    var receipts := package.archives[p].envelope;
    if tools == [] || EnvelopeSize(receipts) > MAX_ENVELOPE || |receipts| != |tools| + 1 {
      return None;
    }
    var fetched := FetchAll(sources.value, receipts);
    if fetched.None? {
      return None;
    }
    var (rows, seen) := fetched.value;
    FetchedDistinct(sources.value, receipts);
    CoreIds(receipts);
    if |set id | id in seen && id.0 == CORE| != 1 || sources.value.tools.Keys != seen - {(CORE, package.coreVersion)} {
      return None;
    }
    return Some(rows);
  }

  lemma FetchedDistinct(s: Sources, receipts: seq<Receipt>)
    requires AllFetched(s, receipts)
    ensures DistinctIds(receipts)
  {
  }

  lemma DictStep(rows: seq<Row>, i: nat)
    requires i < |rows|
    ensures Dict(RowPairs(rows[..i + 1]))
            == Dict(RowPairs(rows[..i]))[(rows[i].tool, rows[i].version) := Build(rows[i].receipt, rows[i].binary)]
  {
    assert RowPairs(rows[..i + 1])[..i] == RowPairs(rows[..i]);
  }

  lemma RowKnown(rows: seq<Row>, i: nat)
    requires i < |rows|
    ensures (rows[i].tool, rows[i].version) in Dict(RowPairs(rows[..i])) ==> !DistinctKeys(RowPairs(rows))
    ensures DistinctKeys(RowPairs(rows[..i])) && (rows[i].tool, rows[i].version) !in Dict(RowPairs(rows[..i]))
            ==> DistinctKeys(RowPairs(rows[..i + 1]))
  {
    hide Dict;
    var known, key := RowPairs(rows[..i]), (rows[i].tool, rows[i].version);
    if key in Dict(known) {
      var j := DictKey(known, key);
      assert RowPairs(rows)[j].0 == RowPairs(rows)[i].0;
    } else if DistinctKeys(known) {
      forall j | 0 <= j < i ensures known[j].0 != key {
        DictAt(known, j);
      }
      var grown := RowPairs(rows[..i + 1]);
      forall j, k | 0 <= j < k < |grown| ensures grown[j].0 != grown[k].0 {
        assert grown[j] == known[j];
        assert k < i ==> grown[k] == known[k];
      }
    }
  }

  /** Reads a build index for reuse. */
  method PreviousBuilds(rows: seq<Row>, p: Platform) returns (r: Option<map<Identity, Build>>)
    ensures r == Reusable(rows, p)
  {
    hide Usable, Dict, DistinctKeys, RowPairs;
    if |rows| > MAX_ROWS {
      return None;
    }
    var result: map<Identity, Build> := map[];
    assert rows[..0] == [];
    NoRows();
    for i := 0 to |rows|
      invariant forall j :: 0 <= j < i ==> Usable(rows[j], p)
      invariant result == Dict(RowPairs(rows[..i])) && DistinctKeys(RowPairs(rows[..i]))
    {
      if !Usable(rows[i], p) {
        return None;
      }
      DictStep(rows, i);
      RowKnown(rows, i);
      var identity := (rows[i].tool, rows[i].version);
      if identity in result {
        return None;
      }
      result := result[identity := Build(rows[i].receipt, rows[i].binary)];
    }
    assert rows[..|rows|] == rows;
    return Some(result);
  }

  lemma NoRows()
    ensures Dict(RowPairs([])) == map[] && DistinctKeys(RowPairs([]))
  {
  }
}
