/** Choosing versions and carrying older builds over from release to release. */
module ReleasePlan {
  import opened Wrappers
  import opened Release
  import opened ReleasePackage

  /**
   * A configured tool: its requested version, and the state of its sources measured
   * with the inputs of its latest receipt, or `None` when one of them is gone.
   */
  datatype Recipe = Recipe(version: Version, state: Option<nat>)

  datatype Choice = Reuse(version: Version) | Make(version: Version)

  /**
   * What one run starts from: the builds of the previous index in identity order,
   * the recipes, and what compiling each tool would produce.
   */
  datatype Setting = Setting(before: seq<Build>, recipes: map<Tool, Recipe>, made: map<Tool, Build>, platform: Platform)

  predicate DistinctIdentities(builds: seq<Build>) {
    forall i, j :: 0 <= i < j < |builds| ==> builds[i].receipt.Id() != builds[j].receipt.Id()
  }

  /** What reading the previous index guarantees. */
  predicate Known(builds: seq<Build>, p: Platform) {
    && DistinctIdentities(builds)
    && forall b :: b in builds ==> b.receipt.Matches(b.binary) && b.receipt.target == Some(p)
  }

  /** The build of a tool with the highest version. */
  function Latest(before: seq<Build>, tool: Tool): Option<Build> {
    if before == [] then None
    else
      var b, best := before[|before| - 1], Latest(before[..|before| - 1], tool);
      if b.receipt.tool == tool && (best.Some? ==> best.value.receipt.version.Below(b.receipt.version)) then Some(b)
      else best
  }

  /** Reuse unchanged sources; otherwise build a version above the latest, or refuse. */
  function Plan(tool: Tool, recipe: Recipe, latest: Option<Build>): Option<Choice> {
    if latest.None? then Some(Make(recipe.version))
    else
      var previous := latest.value.receipt;
      if recipe.state == Some(previous.fingerprint) then Some(Reuse(previous.version))
      else if previous.version.Below(recipe.version) then Some(Make(recipe.version))
      else if tool == CORE then None
      else Some(Make(previous.version.Bumped()))
  }

  predicate DistinctTools(tools: seq<Tool>) {
    forall i, j :: 0 <= i < j < |tools| ==> tools[i] != tools[j]
  }

  predicate Selectable(s: Setting, selected: seq<Tool>) {
    && selected != [] && DistinctTools(selected)
    && forall i :: 0 <= i < |selected| ==> selected[i] in s.recipes && SafeTool(selected[i])
  }

  function Chosen(s: Setting, tool: Tool): Option<Choice> {
    if tool in s.recipes then Plan(tool, s.recipes[tool], Latest(s.before, tool)) else None
  }

  /** The build that ends up in the new index for a selected tool. */
  function Emitted(s: Setting, tool: Tool): Option<Build> {
    var choice := Chosen(s, tool);
    if choice.None? then None
    else if choice.value.Reuse? then Latest(s.before, tool)
    else if tool !in s.made then None
    else
      var b := s.made[tool];
      if b.receipt.Id() != (tool, choice.value.version) || b.receipt.target != Some(s.platform) then None
      else if !b.receipt.Matches(b.binary) then None
      else Some(b)
  }

  predicate AllEmitted(s: Setting, selected: seq<Tool>) {
    forall i :: 0 <= i < |selected| ==> Emitted(s, selected[i]).Some?
  }

  function Newest(s: Setting, selected: seq<Tool>): (r: seq<Build>)
    requires AllEmitted(s, selected)
    ensures |r| == |selected| && forall i :: 0 <= i < |r| ==> r[i] == Emitted(s, selected[i]).value
  {
    seq(|selected|, i requires 0 <= i < |selected| => Emitted(s, selected[i]).value)
  }

  function IdsOf(builds: seq<Build>): set<Identity> {
    set b | b in builds :: b.receipt.Id()
  }

  predicate Retains(b: Build, selected: seq<Tool>, emitted: set<Identity>) {
    b.receipt.tool != CORE && b.receipt.tool in selected && b.receipt.Id() !in emitted
  }

  function Retained(before: seq<Build>, selected: seq<Tool>, emitted: set<Identity>): seq<Build> {
    if before == [] then []
    else
      var n := |before| - 1;
      Retained(before[..n], selected, emitted) + if Retains(before[n], selected, emitted) then [before[n]] else []
  }

  /** The new index: one build for each selected tool, then the older ones it keeps. */
  function Index(s: Setting, selected: seq<Tool>): Option<seq<Build>> {
    if !Selectable(s, selected) || !AllEmitted(s, selected) then None
    else
      var newest := Newest(s, selected);
      Some(newest + Retained(s.before, selected, IdsOf(newest)))
  }

  // -----------------------------------------------------------------------------
  // Versions
  // -----------------------------------------------------------------------------

  lemma {:induction false} LatestIsHighest(before: seq<Build>, tool: Tool)
    ensures Latest(before, tool).Some? ==> Latest(before, tool).value in before && Latest(before, tool).value.receipt.tool == tool
    ensures forall b :: b in before && b.receipt.tool == tool ==>
              Latest(before, tool).Some? && !Latest(before, tool).value.receipt.version.Below(b.receipt.version)
  {
    if before != [] {
      var n := |before| - 1;
      LatestIsHighest(before[..n], tool);
      assert before == before[..n] + [before[n]];
    }
  }

  lemma EqualOrBelow(a: Version, b: Version)
    ensures a == b || a.Below(b) || b.Below(a)
  {
  }

  /** A newly built version is above every earlier version of its tool. */
  lemma NewIsAbove(s: Setting, tool: Tool, b: Build)
    requires Chosen(s, tool).Some? && Chosen(s, tool).value.Make?
    requires b in s.before && b.receipt.tool == tool
    ensures b.receipt.version.Below(Chosen(s, tool).value.version)
  {
    hide Latest;
    LatestIsHighest(s.before, tool);
    EqualOrBelow(b.receipt.version, Latest(s.before, tool).value.receipt.version);
  }

  lemma SameIdentity(builds: seq<Build>, a: Build, b: Build)
    requires DistinctIdentities(builds) && a in builds && b in builds && a.receipt.Id() == b.receipt.Id()
    ensures a == b
  {
    var i :| 0 <= i < |builds| && builds[i] == a;
    var j :| 0 <= j < |builds| && builds[j] == b;
    assert !(i < j) && !(j < i);
  }

  /** An emitted build that has an earlier build's identity is that build. */
  lemma EmittedKeeps(s: Setting, tool: Tool, b: Build)
    requires Known(s.before, s.platform) && Emitted(s, tool).Some? && b in s.before
    requires Emitted(s, tool).value.receipt.Id() == b.receipt.Id()
    ensures Emitted(s, tool).value == b
  {
    hide Latest, Plan;
    LatestIsHighest(s.before, tool);
    if Chosen(s, tool).value.Make? {
      NewIsAbove(s, tool, b);
      assert false;
    } else {
      SameIdentity(s.before, Emitted(s, tool).value, b);
    }
  }

  lemma EmittedTool(s: Setting, tool: Tool)
    requires Emitted(s, tool).Some?
    ensures Emitted(s, tool).value.receipt.tool == tool
    ensures Known(s.before, s.platform) ==>
              Emitted(s, tool).value.receipt.target == Some(s.platform)
              && Emitted(s, tool).value.receipt.Matches(Emitted(s, tool).value.binary)
  {
    hide Latest, Plan;
    LatestIsHighest(s.before, tool);
  }

  // -----------------------------------------------------------------------------
  // The new index
  // -----------------------------------------------------------------------------

  lemma {:induction false} RetainedMember(before: seq<Build>, selected: seq<Tool>, emitted: set<Identity>, b: Build)
    ensures b in Retained(before, selected, emitted) <==> b in before && Retains(b, selected, emitted)
  {
    hide Retains;
    if before != [] {
      var n := |before| - 1;
      RetainedMember(before[..n], selected, emitted, b);
      assert before == before[..n] + [before[n]];
    }
  }

  lemma {:induction false} RetainedDistinct(before: seq<Build>, selected: seq<Tool>, emitted: set<Identity>)
    requires DistinctIdentities(before)
    ensures DistinctIdentities(Retained(before, selected, emitted))
  {
    hide Retains;
    if before != [] {
      var n := |before| - 1;
      var rest := Retained(before[..n], selected, emitted);
      RetainedDistinct(before[..n], selected, emitted);
      forall i | 0 <= i < |rest| ensures rest[i].receipt.Id() != before[n].receipt.Id() {
        RetainedMember(before[..n], selected, emitted, rest[i]);
      }
    }
  }

  /** Every earlier non-core build of a selected tool is in the new index, unchanged. */
  lemma OlderVersionsAreKept(s: Setting, selected: seq<Tool>, b: Build)
    requires Known(s.before, s.platform) && Index(s, selected).Some?
    requires b in s.before && b.receipt.tool in selected && b.receipt.tool != CORE
    ensures b in Index(s, selected).value
  {
    hide Emitted, Retained, Known;
    var newest := Newest(s, selected);
    RetainedMember(s.before, selected, IdsOf(newest), b);
    if b.receipt.Id() in IdsOf(newest) {
      var e :| e in newest && e.receipt.Id() == b.receipt.Id();
      var i :| 0 <= i < |newest| && newest[i] == e;
      EmittedKeeps(s, selected[i], b);
      assert b in newest;
    }
  }

  /** Nothing else gets in: each row was built before, or is the new build of a selected tool. */
  lemma NothingElse(s: Setting, selected: seq<Tool>, b: Build)
    requires Index(s, selected).Some? && b in Index(s, selected).value
    ensures b.receipt.tool in selected
    ensures b in s.before || Emitted(s, b.receipt.tool) == Some(b)
  {
    hide Emitted, Retained;
    var newest := Newest(s, selected);
    RetainedMember(s.before, selected, IdsOf(newest), b);
    if b in newest {
      var i :| 0 <= i < |newest| && newest[i] == b;
      EmittedTool(s, selected[i]);
    }
  }

  lemma FreshDistinct(s: Setting, selected: seq<Tool>)
    requires DistinctTools(selected) && AllEmitted(s, selected)
    ensures DistinctIdentities(Newest(s, selected))
  {
    hide Emitted;
    var newest := Newest(s, selected);
    forall i, j | 0 <= i < j < |newest| ensures newest[i].receipt.Id() != newest[j].receipt.Id() {
      EmittedTool(s, selected[i]);
      EmittedTool(s, selected[j]);
    }
  }

  /** The new index names no identity twice, and each of its rows has its own bytes and target. */
  lemma IndexIsKnown(s: Setting, selected: seq<Tool>)
    requires Known(s.before, s.platform) && Index(s, selected).Some?
    ensures Known(Index(s, selected).value, s.platform)
  {
    hide Emitted, Retained, SafeTool, DistinctTools;
    var newest := Newest(s, selected);
    var kept := Retained(s.before, selected, IdsOf(newest));
    var index := Index(s, selected).value;
    FreshDistinct(s, selected);
    RetainedDistinct(s.before, selected, IdsOf(newest));
    forall i, j | 0 <= i < j < |index| ensures index[i].receipt.Id() != index[j].receipt.Id() {
      if i < |newest| <= j {
        RetainedMember(s.before, selected, IdsOf(newest), kept[j - |newest|]);
        assert newest[i] in newest && newest[i].receipt.Id() in IdsOf(newest);
      }
    }
    forall b | b in index ensures b.receipt.Matches(b.binary) && b.receipt.target == Some(s.platform) {
      NothingElse(s, selected, b);
      if b !in s.before {
        EmittedTool(s, b.receipt.tool);
      }
    }
  }

  // -----------------------------------------------------------------------------
  // Repeated releases
  // -----------------------------------------------------------------------------

  /** One release; `listed` is its index as the next run lists it. */
  datatype Round = Round(recipes: map<Tool, Recipe>, made: map<Tool, Build>, selected: seq<Tool>, listed: seq<Build>)

  ghost predicate Lists(listed: seq<Build>, index: seq<Build>) {
    DistinctIdentities(listed) && forall b :: b in listed <==> b in index
  }

  ghost predicate Succeeds(before: seq<Build>, round: Round, p: Platform) {
    var index := Index(Setting(before, round.recipes, round.made, p), round.selected);
    index.Some? && Lists(round.listed, index.value)
  }

  ghost predicate Chain(before: seq<Build>, rounds: seq<Round>, p: Platform)
    decreases |rounds|
  {
    rounds != [] ==> Succeeds(before, rounds[0], p) && Chain(rounds[0].listed, rounds[1..], p)
  }

  /** What the n-th release starts from. */
  function Start(before: seq<Build>, rounds: seq<Round>, n: nat): seq<Build>
    requires n <= |rounds|
  {
    if n == 0 then before else rounds[n - 1].listed
  }

  lemma StepKeeps(before: seq<Build>, round: Round, p: Platform)
    requires Known(before, p) && Succeeds(before, round, p)
    ensures Known(round.listed, p)
    ensures forall b :: b in before && b.receipt.tool in round.selected && b.receipt.tool != CORE ==> b in round.listed
  {
    hide Index;
    var s := Setting(before, round.recipes, round.made, p);
    IndexIsKnown(s, round.selected);
    forall b | b in before && b.receipt.tool in round.selected && b.receipt.tool != CORE ensures b in round.listed {
      OlderVersionsAreKept(s, round.selected, b);
    }
  }

  /** Over every sequence of releases that select a tool, no version of it is ever lost. */
  lemma {:induction false} VersionsSurvive(before: seq<Build>, rounds: seq<Round>, p: Platform, n: nat, b: Build)
    requires Known(before, p) && Chain(before, rounds, p) && n <= |rounds|
    requires b in before && b.receipt.tool != CORE
    requires forall i :: 0 <= i < n ==> b.receipt.tool in rounds[i].selected
    ensures b in Start(before, rounds, n) && Known(Start(before, rounds, n), p)
    decreases n
  {
    hide Known, Succeeds;
    if n > 0 {
      StepKeeps(before, rounds[0], p);
      VersionsSurvive(rounds[0].listed, rounds[1..], p, n - 1, b);
      assert Start(rounds[0].listed, rounds[1..], n - 1) == Start(before, rounds, n);
    }
  }

  /** Hence a version built in any later release is above every version there ever was. */
  lemma VersionsIncrease(before: seq<Build>, rounds: seq<Round>, p: Platform, n: nat, b: Build)
    requires Known(before, p) && Chain(before, rounds, p) && n < |rounds|
    requires b in before && b.receipt.tool != CORE
    requires forall i :: 0 <= i <= n ==> b.receipt.tool in rounds[i].selected
    requires var s := Setting(Start(before, rounds, n), rounds[n].recipes, rounds[n].made, p);
             Chosen(s, b.receipt.tool).Some? && Chosen(s, b.receipt.tool).value.Make?
    ensures var s := Setting(Start(before, rounds, n), rounds[n].recipes, rounds[n].made, p);
            b.receipt.version.Below(Chosen(s, b.receipt.tool).value.version)
  {
    hide Chosen, Chain, Known;
    VersionsSurvive(before, rounds, p, n, b);
    NewIsAbove(Setting(Start(before, rounds, n), rounds[n].recipes, rounds[n].made, p), b.receipt.tool, b);
  }

  // -----------------------------------------------------------------------------
  // The row limit
  // -----------------------------------------------------------------------------

  function RowsOf(builds: seq<Build>): (r: seq<Row>)
    ensures |r| == |builds|
    ensures forall i :: 0 <= i < |r| ==>
              r[i] == Row(builds[i].receipt.tool, builds[i].receipt.version, builds[i].receipt,
                          builds[i].receipt.compact + 1, builds[i].binary)
  {
    seq(|builds|, i requires 0 <= i < |builds| =>
      Row(builds[i].receipt.tool, builds[i].receipt.version, builds[i].receipt, builds[i].receipt.compact + 1, builds[i].binary))
  }

  /** The next run reads a new index exactly when it has at most 128 rows. */
  lemma ReadableIffShort(builds: seq<Build>, p: Platform)
    requires Known(builds, p)
    requires forall b :: b in builds ==>
               b.receipt.compact < MAX_RECEIPT && SafeTool(b.receipt.tool) && SafeName(b.receipt.name)
    ensures Reusable(RowsOf(builds), p).Some? <==> |builds| <= MAX_ROWS
  {
    hide SafeTool, SafeName, Dict;
    var rows := RowsOf(builds);
    forall i | 0 <= i < |rows| ensures Usable(rows[i], p) {
      assert builds[i] in builds;
    }
    forall i, j | 0 <= i < j < |rows| ensures RowPairs(rows)[i].0 != RowPairs(rows)[j].0 {
      assert builds[i].receipt.Id() != builds[j].receipt.Id();
    }
  }

  lemma {:induction false} IdsCount(builds: seq<Build>)
    requires DistinctIdentities(builds)
    ensures |IdsOf(builds)| == |builds|
  {
    if builds != [] {
      var n := |builds| - 1;
      IdsCount(builds[..n]);
      assert builds == builds[..n] + [builds[n]];
      assert IdsOf(builds) == IdsOf(builds[..n]) + {builds[n].receipt.Id()};
      assert builds[n].receipt.Id() !in IdsOf(builds[..n]);
    }
  }

  /** The tools that get a row besides the earlier builds that are carried over: each newly built
      one, and core, whose earlier builds are not carried over. */
  predicate AddsRow(s: Setting, tool: Tool) {
    tool == CORE || (Chosen(s, tool).Some? && Chosen(s, tool).value.Make?)
  }

  function Added(s: Setting, selected: seq<Tool>): seq<Tool> {
    if selected == [] then []
    else
      var n := |selected| - 1;
      Added(s, selected[..n]) + if AddsRow(s, selected[n]) then [selected[n]] else []
  }

  lemma {:induction false} AddedMember(s: Setting, selected: seq<Tool>, tool: Tool)
    ensures tool in Added(s, selected) <==> tool in selected && AddsRow(s, tool)
  {
    hide AddsRow;
    if selected != [] {
      var n := |selected| - 1;
      AddedMember(s, selected[..n], tool);
      assert selected == selected[..n] + [selected[n]];
    }
  }

  lemma {:induction false} AddedDistinct(s: Setting, selected: seq<Tool>)
    requires DistinctTools(selected)
    ensures DistinctTools(Added(s, selected))
  {
    hide AddsRow;
    if selected != [] {
      var n := |selected| - 1;
      var rest := Added(s, selected[..n]);
      AddedDistinct(s, selected[..n]);
      forall i | 0 <= i < |rest| ensures rest[i] != selected[n] {
        AddedMember(s, selected[..n], rest[i]);
      }
    }
  }

  lemma AddedEmitted(s: Setting, selected: seq<Tool>)
    requires AllEmitted(s, selected)
    ensures AllEmitted(s, Added(s, selected))
  {
    hide Emitted, AddsRow;
    var added := Added(s, selected);
    forall i | 0 <= i < |added| ensures Emitted(s, added[i]).Some? {
      AddedMember(s, selected, added[i]);
    }
  }

  /** A build of an added tool is none of the earlier builds that are carried over. */
  lemma AddedIsNew(s: Setting, tool: Tool, b: Build)
    requires AddsRow(s, tool) && Emitted(s, tool).Some? && b in s.before && b.receipt.tool != CORE
    ensures Emitted(s, tool).value.receipt.Id() != b.receipt.Id()
  {
    hide Latest, Plan;
    EmittedTool(s, tool);
    if tool == b.receipt.tool {
      NewIsAbove(s, tool, b);
    }
  }

  /** A selected tool that adds no row emits an earlier build. */
  lemma NotAddedIsOld(s: Setting, tool: Tool)
    requires !AddsRow(s, tool) && Emitted(s, tool).Some?
    ensures Emitted(s, tool).value in s.before && tool != CORE
  {
    hide Latest, Plan;
    LatestIsHighest(s.before, tool);
  }

  /** The builds of the added tools and the earlier builds that are carried over are the new
      index, without an identity in common. */
  lemma IndexParts(s: Setting, selected: seq<Tool>) returns (parts: seq<Build>)
    requires Known(s.before, s.platform) && Index(s, selected).Some?
    ensures |parts| == |Added(s, selected)| + |Retained(s.before, selected, {})|
    ensures DistinctIdentities(parts) && forall b :: b in parts <==> b in Index(s, selected).value
  {
    hide Emitted, Retained, Added, AddsRow, IdsOf, SafeTool, Known;
    var added, kept := Added(s, selected), Retained(s.before, selected, {});
    AddedEmitted(s, selected);
    AddedDistinct(s, selected);
    var newest := Newest(s, added);
    parts := newest + kept;
    assert DistinctIdentities(parts) by { PartsDistinct(s, selected, newest, kept); }
    forall b ensures b in parts <==> b in Index(s, selected).value {
      if b in newest {
        var i :| 0 <= i < |newest| && newest[i] == b;
        AddedMember(s, selected, added[i]);
        var j :| 0 <= j < |selected| && selected[j] == added[i];
        assert Newest(s, selected)[j] == b;
      } else if b in kept {
        RetainedMember(s.before, selected, {}, b);
        OlderVersionsAreKept(s, selected, b);
      } else if b in Index(s, selected).value {
        IndexIsInParts(s, selected, b);
      }
    }
  }

  lemma PartsDistinct(s: Setting, selected: seq<Tool>, newest: seq<Build>, kept: seq<Build>)
    requires Known(s.before, s.platform) && Selectable(s, selected) && AllEmitted(s, Added(s, selected))
    requires newest == Newest(s, Added(s, selected)) && kept == Retained(s.before, selected, {})
    ensures DistinctIdentities(newest + kept)
  {
    hide Emitted, Retained, Added, AddsRow, SafeTool;
    AddedDistinct(s, selected);
    FreshDistinct(s, Added(s, selected));
    RetainedDistinct(s.before, selected, {});
    forall i, j | 0 <= i < |newest| && 0 <= j < |kept| ensures newest[i].receipt.Id() != kept[j].receipt.Id() {
      AddedMember(s, selected, Added(s, selected)[i]);
      RetainedMember(s.before, selected, {}, kept[j]);
      AddedIsNew(s, Added(s, selected)[i], kept[j]);
    }
  }

  lemma IndexIsInParts(s: Setting, selected: seq<Tool>, b: Build)
    requires Index(s, selected).Some? && b in Index(s, selected).value
    requires AllEmitted(s, Added(s, selected))
    ensures b in Newest(s, Added(s, selected)) || b in Retained(s.before, selected, {})
  {
    hide Emitted, Retained, Added, AddsRow, IdsOf, SafeTool, DistinctTools;
    var newest := Newest(s, selected);
    RetainedMember(s.before, selected, IdsOf(newest), b);
    RetainedMember(s.before, selected, {}, b);
    if b in newest {
      var i :| 0 <= i < |newest| && newest[i] == b;
      EmittedTool(s, selected[i]);
      AddedMember(s, selected, selected[i]);
      if AddsRow(s, selected[i]) {
        var j :| 0 <= j < |Added(s, selected)| && Added(s, selected)[j] == selected[i];
        assert Newest(s, Added(s, selected))[j] == b;
      } else {
        NotAddedIsOld(s, selected[i]);
      }
    }
  }

  /** The length of the new index: the earlier non-core builds of the selected tools, and one row
      for each tool that adds one. */
  lemma IndexLength(s: Setting, selected: seq<Tool>)
    requires Known(s.before, s.platform) && Index(s, selected).Some?
    ensures |Index(s, selected).value| == |Retained(s.before, selected, {})| + |Added(s, selected)|
  {
    hide Index, Retained, Added, Known;
    var index := Index(s, selected).value;
    IndexIsKnown(s, selected);
    KnownDistinct(index, s.platform);
    var parts := IndexParts(s, selected);
    IdsCount(index);
    IdsCount(parts);
    assert IdsOf(index) == IdsOf(parts);
  }

  lemma KnownDistinct(builds: seq<Build>, p: Platform)
    requires Known(builds, p)
    ensures DistinctIdentities(builds)
  {
  }

  /** The next run reads the new index exactly when the earlier non-core builds of the selected
      tools and the rows added are at most 128. */
  lemma NextRunReads(s: Setting, selected: seq<Tool>)
    requires Known(s.before, s.platform) && Index(s, selected).Some?
    requires forall b :: b in Index(s, selected).value ==> b.receipt.compact < MAX_RECEIPT && SafeName(b.receipt.name)
    ensures Reusable(RowsOf(Index(s, selected).value), s.platform).Some? <==>
      |Retained(s.before, selected, {})| + |Added(s, selected)| <= MAX_ROWS
  {
    hide Index, Retained, Added, Known, SafeName, SafeTool, Reusable;
    var index := Index(s, selected).value;
    forall b | b in index ensures SafeTool(b.receipt.tool) {
      NothingElse(s, selected, b);
      SelectedIsSafe(s, selected, b.receipt.tool);
    }
    IndexIsKnown(s, selected);
    IndexLength(s, selected);
    ReadableIffShort(index, s.platform);
  }

  lemma SelectedIsSafe(s: Setting, selected: seq<Tool>, tool: Tool)
    requires Index(s, selected).Some? && tool in selected
    ensures SafeTool(tool)
  {
    hide SafeTool, AllEmitted, Retained;
  }

  /** No index that a run writes has two core builds. */
  predicate OneCore(builds: seq<Build>) {
    forall i, j :: 0 <= i < j < |builds| ==> builds[i].receipt.tool != CORE || builds[j].receipt.tool != CORE
  }

  lemma IndexHasOneCore(s: Setting, selected: seq<Tool>)
    requires Index(s, selected).Some?
    ensures OneCore(Index(s, selected).value)
  {
    hide Emitted, Retained, SafeTool;
    var newest := Newest(s, selected);
    var kept := Retained(s.before, selected, IdsOf(newest));
    forall i | 0 <= i < |newest| ensures newest[i].receipt.tool == selected[i] {
      EmittedTool(s, selected[i]);
    }
    forall j | 0 <= j < |kept| ensures kept[j].receipt.tool != CORE {
      RetainedMember(s.before, selected, IdsOf(newest), kept[j]);
    }
  }

  lemma {:induction false} CarriedCount(before: seq<Build>, selected: seq<Tool>)
    requires OneCore(before) && forall b :: b in before ==> b.receipt.tool in selected
    ensures |Retained(before, selected, {})| == |before| - if Latest(before, CORE).Some? then 1 else 0
  {
    if before != [] {
      var n := |before| - 1;
      CarriedCount(before[..n], selected);
      LatestIsHighest(before[..n], CORE);
      assert before[n] in before;
    }
  }

  /** The tools whose new build is one row more: each newly built one, unless it takes the place
      of a core build. */
  predicate Grows(s: Setting, tool: Tool) {
    Chosen(s, tool).Some? && Chosen(s, tool).value.Make? && (tool == CORE ==> Latest(s.before, CORE).None?)
  }

  function Growing(s: Setting, selected: seq<Tool>): seq<Tool> {
    if selected == [] then []
    else
      var n := |selected| - 1;
      Growing(s, selected[..n]) + if Grows(s, selected[n]) then [selected[n]] else []
  }

  lemma {:induction false} AddedCount(s: Setting, selected: seq<Tool>)
    requires DistinctTools(selected) && forall i :: 0 <= i < |selected| ==> Chosen(s, selected[i]).Some?
    ensures |Added(s, selected)| ==
      |Growing(s, selected)| + if CORE in selected && Latest(s.before, CORE).Some? then 1 else 0
  {
    hide Latest;
    if selected != [] {
      var n := |selected| - 1;
      AddedCount(s, selected[..n]);
      assert selected == selected[..n] + [selected[n]];
      assert CORE in selected <==> CORE in selected[..n] || selected[n] == CORE;
      assert selected[n] == CORE ==> CORE !in selected[..n];
    }
  }

  /**
   * Kept versions only accumulate: a run that selects every tool it was given writes an index
   * that is longer by exactly the tools that grow, so an index of 128 rows is the last readable
   * one unless no tool grows.
   */
  lemma IndexOutgrowsLimit(s: Setting, selected: seq<Tool>)
    requires Known(s.before, s.platform) && Index(s, selected).Some? && OneCore(s.before)
    requires forall b :: b in s.before ==> b.receipt.tool in selected
    requires forall b :: b in Index(s, selected).value ==> b.receipt.compact < MAX_RECEIPT && SafeName(b.receipt.name)
    ensures |Index(s, selected).value| == |s.before| + |Growing(s, selected)|
    ensures |s.before| == MAX_ROWS ==>
      (Reusable(RowsOf(Index(s, selected).value), s.platform).Some? <==> Growing(s, selected) == [])
  {
    hide Index, Retained, Added, Growing, Known, SafeName, Reusable, Latest, Chosen, OneCore;
    IndexLength(s, selected);
    NextRunReads(s, selected);
    CarriedCount(s.before, selected);
    AllChosen(s, selected);
    AddedCount(s, selected);
    LatestIsHighest(s.before, CORE);
  }

  lemma AllChosen(s: Setting, selected: seq<Tool>)
    requires Index(s, selected).Some?
    ensures DistinctTools(selected) && forall i :: 0 <= i < |selected| ==> Chosen(s, selected[i]).Some?
  {
    hide Chosen, SafeTool, Retained, DistinctTools;
    forall i | 0 <= i < |selected| ensures Chosen(s, selected[i]).Some? {
      assert Emitted(s, selected[i]).Some?;
    }
  }

  // -----------------------------------------------------------------------------
  // The run
  // -----------------------------------------------------------------------------

  lemma RetainedStep(before: seq<Build>, i: nat, selected: seq<Tool>, emitted: set<Identity>)
    requires i < |before|
    ensures Retained(before[..i + 1], selected, emitted)
            == Retained(before[..i], selected, emitted) + if Retains(before[i], selected, emitted) then [before[i]] else []
  {
    hide Retains;
    assert before[..i + 1][..i] == before[..i];
  }

  lemma LatestStep(before: seq<Build>, i: nat, tool: Tool)
    requires i < |before|
    ensures Latest(before[..i + 1], tool)
            == (var b, best := before[i], Latest(before[..i], tool);
                if b.receipt.tool == tool && (best.Some? ==> best.value.receipt.version.Below(b.receipt.version)) then Some(b)
                else best)
  {
    assert before[..i + 1][..i] == before[..i];
  }

  method FindLatest(before: seq<Build>, tool: Tool) returns (r: Option<Build>)
    ensures r == Latest(before, tool)
  {
    r := None;
    assert before[..0] == [];
    for i := 0 to |before|
      invariant r == Latest(before[..i], tool)
    {
      LatestStep(before, i, tool);
      if before[i].receipt.tool == tool && (r.None? || r.value.receipt.version.Below(before[i].receipt.version)) {
        r := Some(before[i]);
      }
    }
    assert before[..|before|] == before;
  }

  ghost predicate Planned(s: Setting, tool: Tool, choice: Choice, inputs: map<Tool, Build>) {
    && Chosen(s, tool) == Some(choice)
    && (choice.Reuse? ==> tool in inputs && Latest(s.before, tool) == Some(inputs[tool]))
  }

  /** The choices in order, and the builds to reuse. */
  method PlanAll(s: Setting, selected: seq<Tool>) returns (ok: bool, choices: seq<Choice>, inputs: map<Tool, Build>)
    requires Selectable(s, selected)
    ensures !ok ==> exists i :: 0 <= i < |selected| && Chosen(s, selected[i]).None?
    ensures ok ==> |choices| == |selected|
                   && forall j :: 0 <= j < |selected| ==> Planned(s, selected[j], choices[j], inputs)
  {
    hide Latest, Plan, SafeTool;
    choices, inputs := [], map[];
    for i := 0 to |selected|
      invariant |choices| == i
      invariant forall j :: 0 <= j < i ==> Planned(s, selected[j], choices[j], inputs)
    {
      var tool := selected[i];
      var latest := FindLatest(s.before, tool);
      var choice := Plan(tool, s.recipes[tool], latest);
      if choice.None? {
        return false, choices, inputs;
      }
      choices := choices + [choice.value];
      if choice.value.Reuse? {
        ReuseHasLatest(tool, s.recipes[tool], latest);
        inputs := inputs[tool := latest.value];
      }
    }
    ok := true;
  }

  lemma Produced(s: Setting, tool: Tool, choice: Choice, inputs: map<Tool, Build>)
    requires Planned(s, tool, choice, inputs)
    ensures Emitted(s, tool)
            == if choice.Reuse? then Some(inputs[tool])
               else if tool in s.made && Acceptable(s.made[tool], tool, choice.version, s.platform) then Some(s.made[tool])
               else None
  {
    hide Latest, Plan;
  }

  /** Copies or compiles each planned build. */
  method BuildAll(s: Setting, selected: seq<Tool>, choices: seq<Choice>, inputs: map<Tool, Build>)
    returns (r: Option<seq<Build>>)
    requires |choices| == |selected|
    requires forall j :: 0 <= j < |selected| ==> Planned(s, selected[j], choices[j], inputs)
    ensures r.Some? <==> AllEmitted(s, selected)
    ensures r.Some? ==> r.value == Newest(s, selected)
  {
    hide Emitted;
    var index: seq<Build> := [];
    for i := 0 to |selected|
      invariant |index| == i && forall j :: 0 <= j < i ==> Emitted(s, selected[j]) == Some(index[j])
    {
      var tool := selected[i];
      Produced(s, tool, choices[i], inputs);
      if choices[i].Reuse? {
        index := index + [inputs[tool]];
      } else {
        if tool !in s.made || !Acceptable(s.made[tool], tool, choices[i].version, s.platform) {
          return None;
        }
        index := index + [s.made[tool]];
      }
    }
    assert index == Newest(s, selected);
    return Some(index);
  }

  /** Plans every tool, then produces its build, then carries the older builds over. */
  method Run(s: Setting, selected: seq<Tool>) returns (r: Option<seq<Build>>)
    ensures r == Index(s, selected)
  {
    hide Latest, Plan, Retained, IdsOf, Selectable, Newest;
    if !Selectable(s, selected) {
      return None;
    }
    var ok, choices, inputs := PlanAll(s, selected);
    if !ok {
      return None;
    }
    var index := BuildAll(s, selected, choices, inputs);
    if index.None? {
      return None;
    }
    var all := Carry(s.before, selected, IdsOf(index.value), index.value);
    return Some(all);
  }

  lemma ReuseHasLatest(tool: Tool, recipe: Recipe, latest: Option<Build>)
    requires Plan(tool, recipe, latest).Some? && Plan(tool, recipe, latest).value.Reuse?
    ensures latest.Some?
  {
  }

  predicate Acceptable(b: Build, tool: Tool, version: Version, p: Platform) {
    b.receipt.Id() == (tool, version) && b.receipt.target == Some(p) && b.receipt.Matches(b.binary)
  }

  method Carry(before: seq<Build>, selected: seq<Tool>, emitted: set<Identity>, index: seq<Build>) returns (r: seq<Build>)
    ensures r == index + Retained(before, selected, emitted)
  {
    hide Retained, Retains;
    r := index;
    assert before[..0] == [];
    assert Retained([], selected, emitted) == [] by { NothingRetained(selected, emitted); }
    for i := 0 to |before|
      invariant r == index + Retained(before[..i], selected, emitted)
    {
      RetainedStep(before, i, selected, emitted);
      if Retains(before[i], selected, emitted) {
        r := r + [before[i]];
      }
    }
    assert before[..|before|] == before;
  }

  lemma NothingRetained(selected: seq<Tool>, emitted: set<Identity>)
    ensures Retained([], selected, emitted) == []
  {
  }
}
