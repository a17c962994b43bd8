/** Runs, for whole families of plans, in which the adoption falls short of what it promises. */
module AdoptionWitness {
  import opened AdoptionModel
  import opened AdoptionSafety
  import opened AdoptionRuns
  import opened AdoptionRecovery
  import opened AdoptionExact

  const OK := Fault(true, Done)
  const CRASH := Fault(false, Crashed)

  /** The receipt of the adoption that starts on `h`. */
  function Begun(h: Host, es: seq<Entry>, release: nat): Host {
    h.(receipts := h.receipts + [Receipt(Preparing, es, false, true, release)])
  }

  lemma BeginsWith(h: Host, es: seq<Entry>, release: nat, rest: seq<Fault>)
    ensures Begin(Machine(h, [OK, OK, OK] + rest), es, release) == Skip(Machine(Begun(h, es, release), rest))
  {
    var tape := [OK, OK, OK] + rest;
    assert tape[1..] == [OK, OK] + rest && tape[1..][1..] == [OK] + rest && tape[1..][1..][1..] == rest;
  }

  /** A tape on which every unit is stopped and disabled, with `rest` to come. */
  lemma {:induction false} QuiesceTape(h: Host, es: seq<Entry>, k: nat, rest: seq<Fault>) returns (tape: seq<Fault>)
    requires k <= |es|
    ensures var s := QuiesceAll(Machine(h, tape), es, k); s.outcome == Done && s.m.tape == rest
    decreases |es| - k
  {
    if k == |es| {
      tape := rest;
    } else if es[k].Skipped? {
      tape := QuiesceTape(h, es, k + 1, rest);
    } else {
      var u := es[k].state;
      var next := WithLegacy(Machine(h, []), k, Quiesce(LegacyPart(Machine(h, []), k), u)).m.state;
      var later := QuiesceTape(next, es, k + 1, rest);
      tape := (if u.active then [OK] else []) + (if u.enabled then [OK] else []) + later;
      var m := LegacyPart(Machine(h, tape), k);
      assert Quiesce(m, u).outcome == Done && Quiesce(m, u).m.tape == later;
    }
  }

  /** A tape that brings the adoption to its first installation, with `rest` to come. */
  lemma ReachInstall(h: Host, es: seq<Entry>, release: nat, rest: seq<Fault>)
      returns (tape: seq<Fault>, quiet: Host)
    requires Sane(h) && Ready(h, es)
    ensures quiet == Begun(h, es, release).(legacy := quiet.legacy) && |quiet.legacy| == |es| && AllOff(quiet.legacy)
    ensures var s := Begin(Machine(h, tape), es, release);
      s.outcome == Done && QuiesceAll(s.m, es, 0) == Skip(Machine(quiet, rest))
  {
    hide QuiesceAll;
    ReadyFits(h, es);
    var later := QuiesceTape(Begun(h, es, release), es, 0, rest);
    tape := [OK, OK, OK] + later;
    BeginsWith(h, es, release, later);
    var m := Machine(Begun(h, es, release), later);
    QuiesceAllStops(m, es, 0);
    quiet := QuiesceAll(m, es, 0).m.state;
  }

  /** The first entry that the plan covers. */
  ghost predicate Leads(es: seq<Entry>, k: nat) {
    k < |es| && es[k].Covered? && forall i :: 0 <= i < k ==> es[i].Skipped?
  }

  lemma {:induction false} SomeLeads(es: seq<Entry>) returns (k: nat)
    requires Size(es) > 0
    ensures Leads(es, k)
    decreases |es|
  {
    if Size(es[..|es| - 1]) > 0 {
      k := SomeLeads(es[..|es| - 1]);
    } else {
      k := |es| - 1;
      forall i | 0 <= i < k ensures es[i].Skipped? {
        NothingCovered(es[..|es| - 1], i);
      }
    }
  }

  lemma {:induction false} NothingCovered(es: seq<Entry>, i: nat)
    requires Size(es) == 0 && i < |es|
    ensures es[i].Skipped?
    decreases |es|
  {
    if i < |es| - 1 {
      NothingCovered(es[..|es| - 1], i);
    }
  }

  /** Skipped entries at the front of a plan are not installed. */
  lemma {:induction false} AdoptAllLeads(m: System, es: seq<Entry>, release: nat, j: nat, k: nat)
    requires j <= k && Leads(es, k)
    ensures AdoptAll(m, es, release, j) == AdoptAll(m, es, release, k)
    decreases k - j
  {
    hide Adopt;
    if j < k {
      AdoptAllLeads(m, es, release, j + 1, k);
    }
  }

  // -----------------------------------------------------------------------------
  // A reboot
  // -----------------------------------------------------------------------------

  lemma {:induction false} CrashBeforeQuiesce(m: System, es: seq<Entry>, k: nat)
    requires k <= |es| && m.tape == [CRASH]
    requires exists i :: k <= i < |es| && es[i].Covered? && es[i].state.enabled
    ensures QuiesceAll(m, es, k) == Step(Crashed, Machine(m.state, []))
    decreases |es| - k
  {
    if es[k].Skipped? {
      CrashBeforeQuiesce(m, es, k + 1);
    } else {
      assert WithLegacy(m, k, Quiesce(LegacyPart(m, k), es[k].state)).m.state == m.state;
      if es[k].state == OFF {
        CrashBeforeQuiesce(m, es, k + 1);
      }
    }
  }

  /** The journal is on disk and nothing else has happened. */
  lemma CrashLeavesJournal(h: Host, es: seq<Entry>, release: nat)
    requires Sane(h) && Ready(h, es) && !BootConsistent(es)
    ensures Next(h, DoApply(es, release, [OK, OK, OK] + [CRASH])) == Begun(h, es, release)
    ensures Sane(Begun(h, es, release))
  {
    hide QuiesceAll, Sane, Size, Ready;
    BeginsWith(h, es, release, [CRASH]);
    CrashBeforeQuiesce(Machine(Begun(h, es, release), [CRASH]), es, 0);
    NextSane(h, DoApply(es, release, [OK, OK, OK] + [CRASH]));
  }

  /** The reboot condition of `CalmRunsRestoreExactly` is needed: for every plan with a unit that
      was enabled but stopped, a crash, a reboot and a completed rollback leave it running. */
  lemma RebootBreaksRestoration(h: Host, es: seq<Entry>, release: nat)
    requires Sane(h) && Ready(h, es) && Size(es) <= ROLLBACK_LIMIT && !BootConsistent(es)
    ensures exists tape :: var r := |h.receipts|;
      var g := Rollback(Machine(Reboot(Next(h, DoApply(es, release, tape))), []), r);
      g.outcome == Done && !Matches(g.m.state.legacy, es)
  {
    hide Rollback, Sane, Size, Ready, Apply;
    var r := |h.receipts|;
    ReadyFits(h, es);
    assert h.cli == Original by { ReadyCli(h, es); }
    CrashLeavesJournal(h, es, release);
    var booted := Reboot(Begun(h, es, release));
    RebootKeeps(Begun(h, es, release));
    RollbackCanFinish(Machine(booted, []), r);
    RollbackRestores(Machine(booted, []), r);
    var i :| 0 <= i < |es| && es[i].Covered? && es[i].state.enabled && !es[i].state.active;
    assert booted.legacy[i].active;
    assert booted.receipts[r].entries == es;
  }

  // -----------------------------------------------------------------------------
  // A second adoption beside an unfinished one
  // -----------------------------------------------------------------------------

  /** The first call of an installation, whoever it is for. */
  lemma AdoptStopsAtOnce(m: System, e: Entry, release: nat)
    requires e.Covered? && e.slot < |m.state.native| && m.tape != [] && m.tape[0].outcome != Done
    ensures Adopt(m, e, release) == Step(m.tape[0].outcome, Machine(m.state, m.tape[1..]))
  {
    hide WriteFiles, Activate, WriteProfile, WriteModule;
    var h := m.state;
    assert h.native[e.slot := h.native[e.slot]] == h.native;
    match e.owner {
      case Nobody =>
      case Inside(j) => assert j < |h.native| ==> h.native[j := h.native[j]] == h.native;
      case Outside(o) => assert o < |h.outside| ==> h.outside[o := h.outside[o]] == h.outside;
    }
  }

  lemma {:induction false} QuiesceNothing(m: System, es: seq<Entry>, k: nat)
    requires k <= |es| && RevivesNothing(es)
    ensures QuiesceAll(m, es, k) == Skip(m)
    decreases |es| - k
  {
    if k < |es| {
      assert k < |m.state.legacy| ==> m.state.legacy[k := m.state.legacy[k]] == m.state.legacy;
      assert es[k].Covered? ==> WithLegacy(m, k, Quiesce(LegacyPart(m, k), es[k].state)) == Skip(m);
      QuiesceNothing(m, es, k + 1);
    }
  }

  /** The plan with every recorded state off. */
  function Stopped(es: seq<Entry>): (r: seq<Entry>)
    ensures |r| == |es|
    ensures forall i :: 0 <= i < |es| ==> r[i] == if es[i].Skipped? then Skipped else es[i].(state := OFF)
  {
    seq(|es|, i requires 0 <= i < |es| => if es[i].Skipped? then Skipped else es[i].(state := OFF))
  }

  lemma {:induction false} StoppedSize(es: seq<Entry>)
    ensures Size(Stopped(es)) == Size(es)
    decreases |es|
  {
    if es != [] {
      assert Stopped(es)[..|es| - 1] == Stopped(es[..|es| - 1]);
      StoppedSize(es[..|es| - 1]);
    }
  }

  /** Once every unit is off, inspection finds the same plan with every state off. */
  lemma StoppedReady(h: Host, g: Host, es: seq<Entry>)
    requires Ready(h, es) && |g.legacy| == |es| && AllOff(g.legacy) && g.cli == Original
    requires |g.native| == |h.native|
    requires forall j :: 0 <= j < |h.native| ==> g.native[j].manifest == h.native[j].manifest
    ensures Ready(g, Stopped(es)) && RevivesNothing(Stopped(es))
  {
    hide Size;
    StoppedSize(es);
    ReadyFits(h, es);
    forall i | 0 <= i < |es| ensures EntryReady(g, g.legacy[i], Stopped(es)[i]) {
      assert EntryReady(h, h.legacy[i], es[i]);
    }
  }

  lemma StoppedNames(es: seq<Entry>, s: nat)
    ensures Names(Stopped(es), s) <==> Names(es, s)
  {
    if i :| 0 <= i < |es| && es[i].Covered? && es[i].slot == s {
      assert Stopped(es)[i].slot == s;
    }
  }

  lemma StoppedOwned(h: Host, es: seq<Entry>)
    ensures Owned(h, Stopped(es)) <==> Owned(h, es)
  {
    hide Names;
    if es != [] && es[|es| - 1].Covered? && es[|es| - 1].owner.Inside? {
      StoppedNames(es, es[|es| - 1].owner.slot);
    }
  }

  /** An adoption killed after it has stopped and disabled the legacy units. */
  lemma KilledWhileQuiet(h: Host, es: seq<Entry>, release: nat) returns (tape: seq<Fault>, quiet: Host)
    requires Sane(h) && Ready(h, es)
    ensures quiet == Begun(h, es, release).(legacy := quiet.legacy) && |quiet.legacy| == |es| && AllOff(quiet.legacy)
    ensures Apply(Machine(h, tape), es, release) == Result(Killed, Machine(quiet, []))
  {
    hide QuiesceAll, Adopt, Begin, Publish, Size, AllOff;
    tape, quiet := ReachInstall(h, es, release, [CRASH]);
    ReadyFits(h, es);
    var k := SomeLeads(es);
    AdoptAllLeads(Machine(quiet, [CRASH]), es, release, 0, k);
    AdoptStopsAtOnce(Machine(quiet, [CRASH]), es[k], release);
  }

  /** On a host whose units are all off, an adoption fails at its first installation. */
  lemma FailsWhileQuiet(h: Host, es: seq<Entry>, release: nat) returns (tape: seq<Fault>)
    requires Sane(h) && Ready(h, es) && RevivesNothing(es) && Size(es) <= ROLLBACK_LIMIT
    ensures var a := Apply(Machine(h, tape), es, release);
      a.verdict == Restored && a.m.state.legacy == h.legacy
  {
    hide QuiesceAll, Adopt, Begin, Publish, RollbackInner, Sane, Size;
    var r := |h.receipts|;
    var fault := Fault(false, Failed);
    tape := [OK, OK, OK] + [fault];
    BeginsWith(h, es, release, [fault]);
    ReadyFits(h, es);
    var m := Machine(Begun(h, es, release), [fault]);
    QuiesceNothing(m, es, 0);
    var k := SomeLeads(es);
    AdoptAllLeads(m, es, release, 0, k);
    AdoptStopsAtOnce(m, es[k], release);
    var t := Machine(Begun(h, es, release), []);
    assert Transact(m, r, es) == Step(Failed, t);
    RollbackCanFinish(t, r);
    assert Rollback(t, r) == RollbackInner(t, r);
    ApplyOutcomes(Machine(h, tape), es, release);
  }

  /** For every plan with a unit that is not off: an adoption killed after it quiesced the units,
      and a second one of the same plan that fails, report the originals as restored while every
      unit is off. The first receipt, which alone has the original states, is still open. */
  lemma SecondAdoptionForgets(h: Host, es: seq<Entry>, release: nat)
    requires Sane(h) && Ready(h, es) && Size(es) <= ROLLBACK_LIMIT && !RevivesNothing(es)
    ensures exists killed, failed ::
      var g := Apply(Machine(h, killed), es, release).m.state;
      var a := Apply(Machine(g, failed), Stopped(es), release);
      && a.verdict == Restored && Open(a.m.state, |h.receipts|)
      && a.m.state.receipts[|h.receipts|].entries == es
      && AllOff(a.m.state.legacy) && !Matches(a.m.state.legacy, es)
  {
    hide Apply, Sane, Ready, Size;
    var killed, quiet := KilledWhileQuiet(h, es, release);
    assert Apply(Machine(h, killed), es, release).m.state == quiet;
    SaneAfter(h, es, release, killed);
    assert quiet.cli == Original by { ReadyCli(h, es); }
    StoppedReady(h, quiet, es);
    StoppedSize(es);
    var failed := FailsWhileQuiet(quiet, Stopped(es), release);
    var a := Apply(Machine(quiet, failed), Stopped(es), release);
    ApplyOutcomes(Machine(quiet, failed), Stopped(es), release);
    assert a.m.state.receipts[..|quiet.receipts|][|h.receipts|] == quiet.receipts[|h.receipts|];
    var i :| 0 <= i < |es| && es[i].Covered? && es[i].state != OFF;
    assert a.m.state.legacy[i] != es[i].state;
  }

  lemma ReadyCli(h: Host, es: seq<Entry>)
    requires Ready(h, es)
    ensures h.cli == Original && Size(es) > 0
  {
  }

  lemma SaneAfter(h: Host, es: seq<Entry>, release: nat, faults: seq<Fault>)
    requires Sane(h)
    ensures Sane(Apply(Machine(h, faults), es, release).m.state)
  {
    hide Apply;
    ApplyOutcomes(Machine(h, faults), es, release);
  }

  // -----------------------------------------------------------------------------
  // A unit file left over
  // -----------------------------------------------------------------------------

  lemma CrashBetweenFiles(m: Registration, want: Unit, release: nat)
    requires !m.state.unit && m.tape == [OK, OK, OK, CRASH]
    ensures Install(m, want, release) == Step(Crashed, Machine(m.state.(unit := true), []))
  {
    hide Activate;
    assert m.tape[1..] == [OK, OK, CRASH] && m.tape[1..][1..] == [OK, CRASH] && m.tape[1..][1..][1..] == [CRASH];
  }

  lemma CrashLeavesUnit(m: System, e: Entry, release: nat)
    requires e.Covered? && e.slot < |m.state.native| && !m.state.native[e.slot].unit
    requires !Paired(m, e) && m.tape == [OK, OK, OK, CRASH]
    ensures Adopt(m, e, release) ==
      Step(Crashed, Machine(m.state.(native := m.state.native[e.slot := m.state.native[e.slot].(unit := true)]), []))
  {
    hide Install;
    CrashBetweenFiles(NativePart(m, e.slot), e.state, release);
  }

  /** After no further events does any adoption that names this registration complete. */
  ghost predicate NeverAdopts(h: Host, slot: nat) {
    forall events: seq<Event>, es: seq<Entry>, release: nat, faults: seq<Fault> ::
      Names(es, slot) ==> Apply(Machine(History(h, events), faults), es, release).verdict != Adoption
  }

  lemma LeftoverNeverAdopts(h: Host, i: nat)
    requires Sane(h) && i < |h.native| && Leftover(h.native[i])
    ensures NeverAdopts(h, i)
  {
    hide Apply, History, Sane, Names;
    forall events: seq<Event>, es: seq<Entry>, release: nat, faults: seq<Fault> | Names(es, i)
      ensures Apply(Machine(History(h, events), faults), es, release).verdict != Adoption {
      LeftoverBlocksForever(h, events, i, es, release, faults);
    }
  }

  /** For every accepted plan a crash between the unit file and the manifest of its first entry,
      followed by a completed rollback, leaves a host on which no later adoption under that
      identity ever completes. */
  lemma CrashBlocksLaterAdoptions(h: Host, es: seq<Entry>, release: nat, k: nat)
    requires Sane(h) && Ready(h, es) && Size(es) <= ROLLBACK_LIMIT
    requires Leads(es, k) && !Paired(Machine(h, []), es[k])
    requires es[k].slot < |h.native| && !h.native[es[k].slot].unit
    ensures exists tape :: var g := Apply(Machine(h, tape), es, release).m.state;
      var s := Rollback(Machine(g, []), |h.receipts|);
      && s.outcome == Done && Matches(s.m.state.legacy, es)
      && |s.m.state.native| == |h.native| && Sane(s.m.state) && Leftover(s.m.state.native[es[k].slot])
      && NeverAdopts(s.m.state, es[k].slot)
  {
    hide QuiesceAll, Adopt, Begin, Publish, Rollback, Sane, NeverAdopts, Size;
    var tape, quiet := ReachInstall(h, es, release, [OK, OK, OK, CRASH]);
    var r, slot := |h.receipts|, es[k].slot;
    ReadyFits(h, es);
    AdoptAllLeads(Machine(quiet, [OK, OK, OK, CRASH]), es, release, 0, k);
    CrashLeavesUnit(Machine(quiet, [OK, OK, OK, CRASH]), es[k], release);
    var g := quiet.(native := quiet.native[slot := quiet.native[slot].(unit := true)]);
    assert Apply(Machine(h, tape), es, release) == Result(Killed, Machine(g, []));
    SaneAfter(h, es, release, tape);
    RollbackCanFinish(Machine(g, []), r);
    RollbackOutcomes(Machine(g, []), r);
    RollbackRestores(Machine(g, []), r);
    LeftoverNeverAdopts(Rollback(Machine(g, []), r).m.state, slot);
  }

  // -----------------------------------------------------------------------------
  // An orphan
  // -----------------------------------------------------------------------------

  /** The start command fails after starting the service, and the clean-up cannot stop it. */
  const LOST_STOP := [OK, OK, OK, OK] + [OK, OK, OK] + [Fault(true, Failed)] + [Fault(false, Failed)] + [OK, OK, OK, OK, OK]

  function Orphan(n: Native): Native {
    n.(manifest := false, unit := false, active := true, enabled := false, lost := true, release := 0)
  }

  lemma WriteCalls(m: Registration, release: nat, rest: seq<Fault>)
    requires m.tape == [OK, OK, OK, OK] + rest && !m.state.unit
    ensures Touch(m).outcome == Done
    ensures WriteFiles(Touch(m).m, release) ==
      Skip(Machine(m.state.(unit := true, manifest := true, release := release), rest))
  {
    assert m.tape[1..] == [OK, OK, OK] + rest && m.tape[1..][1..] == [OK, OK] + rest;
    assert m.tape[1..][1..][1..] == [OK] + rest && m.tape[1..][1..][1..][1..] == rest;
  }

  lemma EnlistCalls(m: Registration, want: Unit, rest: seq<Fault>)
    requires m.tape == [OK, OK, OK] + rest && want.active
    ensures Enlist(m, want) == Skip(Machine(m.state.(enabled := true), rest))
  {
    assert m.tape[1..] == [OK, OK] + rest && m.tape[1..][1..] == [OK] + rest && m.tape[1..][1..][1..] == rest;
  }

  lemma DropCalls(m: Registration, rest: seq<Fault>)
    requires m.tape == [OK, OK, OK, OK] + rest
    ensures DropFiles(m) == Step(Failed, Machine(m.state.(manifest := false, unit := false, release := 0), rest))
  {
    var gone := m.state.(manifest := false, release := 0);
    assert m.tape[1..] == [OK, OK, OK] + rest && ([OK, OK, OK] + rest)[1..] == [OK, OK] + rest;
    assert ([OK, OK] + rest)[1..] == [OK] + rest && ([OK] + rest)[1..] == rest;
    assert PutManifest(m, false, 0) == Skip(Machine(gone, [OK, OK, OK] + rest));
    assert RemoveFiles(m) == Skip(Machine(gone.(unit := false), [OK] + rest));
  }

  lemma CleanUpCalls(m: Registration, rest: seq<Fault>)
    requires m.tape == [Fault(false, Failed)] + [OK, OK, OK, OK, OK] + rest
    ensures CleanUp(m, true) ==
      Step(Failed, Machine(m.state.(manifest := false, unit := false, enabled := false, lost := true, release := 0), rest))
  {
    hide DropFiles;
    assert m.tape[1..] == [OK, OK, OK, OK, OK] + rest;
    assert ([OK, OK, OK, OK, OK] + rest)[1..] == [OK, OK, OK, OK] + rest;
    DropCalls(Machine(m.state.(enabled := false, lost := true), [OK, OK, OK, OK] + rest), rest);
  }

  lemma LostStopOrphans(m: Registration, want: Unit, release: nat, rest: seq<Fault>)
    requires !m.state.unit && !m.state.manifest && m.tape == LOST_STOP + rest && want.active
    ensures Install(m, want, release) == Step(Failed, Machine(Orphan(m.state), rest))
  {
    hide WriteFiles, Enlist, CleanUp;
    var failed, after := [Fault(true, Failed)], [Fault(false, Failed)] + [OK, OK, OK, OK, OK] + rest;
    assert m.tape == [OK, OK, OK, OK] + ([OK, OK, OK] + (failed + after));
    WriteCalls(m, release, [OK, OK, OK] + (failed + after));
    var m1 := WriteFiles(Touch(m).m, release).m;
    EnlistCalls(m1, want, failed + after);
    var m2 := Enlist(m1, want).m;
    assert (failed + after)[1..] == after;
    var m3 := Machine(m2.state.(active := true), after);
    assert Launch(m2, want) == Step(Failed, m3);
    CleanUpCalls(m3, rest);
  }

  lemma AdoptOrphans(m: System, e: Entry, release: nat, rest: seq<Fault>)
    requires e.Covered? && e.slot < |m.state.native|
    requires !m.state.native[e.slot].unit && !m.state.native[e.slot].manifest
    requires !Paired(m, e) && m.tape == LOST_STOP + rest && e.state.active
    ensures Adopt(m, e, release) ==
      Step(Failed, Machine(m.state.(native := m.state.native[e.slot := Orphan(m.state.native[e.slot])]), rest))
  {
    hide Install;
    LostStopOrphans(NativePart(m, e.slot), e.state, release, rest);
  }

  /** The plan starts with a running unit whose registration can be made. */
  ghost predicate StartsWith(h: Host, es: seq<Entry>, k: nat) {
    && Leads(es, k) && es[k].state.active && !Paired(Machine(h, []), es[k])
    && es[k].slot < |h.native| && !h.native[es[k].slot].unit
  }

  /** An adoption whose first installation leaves an orphan, with `rest` to come. */
  lemma ReachOrphan(h: Host, es: seq<Entry>, release: nat, k: nat, rest: seq<Fault>)
      returns (tape: seq<Fault>, g: Host)
    requires Sane(h) && Ready(h, es) && StartsWith(h, es, k)
    ensures |g.legacy| == |es| && AllOff(g.legacy)
    ensures g == Begun(h, es, release).(legacy := g.legacy, native := h.native[es[k].slot := Orphan(h.native[es[k].slot])])
    ensures var s := Begin(Machine(h, tape), es, release);
      s.outcome == Done && Transact(s.m, |h.receipts|, es) == Step(Failed, Machine(g, rest))
  {
    hide QuiesceAll, Adopt, Begin, Publish, Size, AllOff;
    var quiet;
    tape, quiet := ReachInstall(h, es, release, LOST_STOP + rest);
    ReadyFits(h, es);
    AdoptAllLeads(Machine(quiet, LOST_STOP + rest), es, release, 0, k);
    AdoptOrphans(Machine(quiet, LOST_STOP + rest), es[k], release, rest);
    g := quiet.(native := quiet.native[es[k].slot := Orphan(quiet.native[es[k].slot])]);
  }

  /** For every plan that starts with a running unit, one start command that fails after
      starting the service and one clean-up stop that fails make `apply` report the originals
      as restored while the native service and the legacy unit both run. */
  lemma LostStopRunsBoth(h: Host, es: seq<Entry>, release: nat, k: nat)
    requires Sane(h) && Ready(h, es) && Size(es) <= ROLLBACK_LIMIT && StartsWith(h, es, k)
    ensures exists tape :: var a := Apply(Machine(h, tape), es, release);
      a.verdict == Restored && BothRun(a.m.state)
  {
    hide Transact, RollbackInner, Begin, Sane, Size;
    var r := |h.receipts|;
    ReadyFits(h, es);
    var tape, g := ReachOrphan(h, es, release, k, []);
    var t := Machine(g, []);
    BeginOutcomes(Machine(h, tape), es, release);
    assert Sane(g) by {
      BegunSane(h, Begin(Machine(h, tape), es, release).m.state, es);
      TransactSane(Begin(Machine(h, tape), es, release).m, r, es);
    }
    RollbackCanFinish(t, r);
    assert Rollback(t, r) == RollbackInner(t, r);
    var slot := es[k].slot;
    assert g.native[slot].active && !g.native[slot].manifest && g.receipts[r].entries[k].state.active;
    RollbackKeepsOrphans(t, r);
    assert Apply(Machine(h, tape), es, release) == Recovered(RollbackInner(t, r));
  }

  /** The host of `OrphanMakesAdoptionInexact` is one that runs reach: the orphan of an adoption
      that is killed before its rollback, and a second adoption that finds all units off. */
  lemma OrphanOutlivesRecord(h: Host, es: seq<Entry>, release: nat, k: nat)
    requires Sane(h) && Ready(h, es) && StartsWith(h, es, k)
    requires !Owned(h, es) && NoLeftover(h.native, es)
    ensures exists tape :: var g := Apply(Machine(h, tape), es, release).m.state;
      var a := Apply(Machine(g, []), Stopped(es), release);
      a.verdict == Adoption && !Exact(a.m.state.native, Stopped(es))
  {
    hide Transact, Retreat, Begin, Sane, Size, Owned, Exact, NoLeftover, AllOff;
    var tape, g := ReachOrphan(h, es, release, k, [CRASH]);
    assert RollbackInner(Machine(g, [CRASH]), |h.receipts|) == Step(Crashed, Machine(g, []));
    assert Apply(Machine(h, tape), es, release) == Result(Killed, Machine(g, []));
    SaneAfter(h, es, release, tape);
    ReadyFits(h, es);
    StoppedReady(h, g, es);
    OrphanFree(h, g, es, k);
    OrphanMakesAdoptionInexact(g, Stopped(es), release, k);
  }

  lemma OrphanFree(h: Host, g: Host, es: seq<Entry>, k: nat)
    requires k < |es| && es[k].Covered? && es[k].slot < |h.native|
    requires !Owned(h, es) && NoLeftover(h.native, es) && g.outside == h.outside
    requires g.native == h.native[es[k].slot := Orphan(h.native[es[k].slot])]
    ensures !Owned(g, Stopped(es)) && NoLeftover(g.native, Stopped(es))
  {
    hide Names;
    StoppedOwned(g, es);
  }

  // -----------------------------------------------------------------------------
  // An owner outside the plan
  // -----------------------------------------------------------------------------

  lemma JoinFaultFree(m: Registration, release: nat)
    requires m.tape == [] && m.state.release == release && m.state.module_ != Other
    ensures Join(m, release) == Skip(Machine(m.state.(module_ := Enabled), []))
  {
  }

  /** The owner after the private entry has joined it: its module is on, and an entry that ran
      without being enabled leaves the owner disabled. */
  function Joined(n: Native, want: Unit): Native {
    n.(module_ := Enabled, enabled := n.enabled && (!want.active || want.enabled))
  }

  lemma AdoptJoins(m: System, e: Entry, release: nat, o: nat)
    requires m.tape == [] && e.Covered? && e.owner == Outside(o) && o < |m.state.outside| && m.state.outside[o].manifest
    requires m.state.outside[o].release == release && m.state.outside[o].module_ != Other
    ensures Adopt(m, e, release) ==
      Skip(Machine(m.state.(outside := m.state.outside[o := Joined(m.state.outside[o], e.state)]), []))
  {
    hide Join;
    JoinFaultFree(OwnerPart(m, e.owner), release);
    var out, n := m.state.outside, m.state.outside[o].(module_ := Enabled);
    assert out[o := n][o := n.(enabled := false)] == out[o := n.(enabled := false)];
    assert e.state.active && !e.state.enabled ==> Joined(out[o], e.state) == n.(enabled := false);
    assert !(e.state.active && !e.state.enabled) ==> Joined(out[o], e.state) == n;
  }

  lemma {:induction false} AdoptAllSplit(m: System, es: seq<Entry>, release: nat, k: nat, n: nat)
    requires k <= n <= |es| && AdoptAll(m, es[..n], release, k).outcome == Done
    ensures AdoptAll(m, es, release, k) == AdoptAll(AdoptAll(m, es[..n], release, k).m, es, release, n)
    decreases n - k
  {
    hide Adopt;
    if k < n {
      AdoptAllSplit(if es[k].Skipped? then m else Adopt(m, es[k], release).m, es, release, k + 1, n);
    }
  }

  lemma {:induction false} BindAllMisses(m: System, es: seq<Entry>, k: nat, i: nat)
    requires k <= i < |es| && es[i].Covered? && m.tape == [] && !Registered(m.state.native, es[i])
    ensures BindAll(m, es, k) == Step(Failed, m)
    decreases |es| - k
  {
    if es[k].Skipped? || Registered(m.state.native, es[k]) {
      BindAllMisses(m, es, k + 1, i);
    }
  }

  lemma PublishTakesBack(m: System, r: nat, es: seq<Entry>, i: nat)
    requires i < |es| && es[i].Covered? && m.tape == [] && !Registered(m.state.native, es[i]) && m.state.cli == Original
    ensures Publish(m, r, es) == Step(Failed, m)
  {
    hide BindAll;
    BindAllMisses(Machine(m.state.(cli := Adopted(ReceiptAt(m.state, r).release)), []), es, 0, i);
  }

  /** A registered owner outside the plan that the last entry can join. */
  ghost predicate JoinsOutside(h: Host, es: seq<Entry>, release: nat, o: nat) {
    && es != [] && es[|es| - 1].Covered? && es[|es| - 1].owner == Outside(o)
    && o < |h.outside| && h.outside[o].manifest
    && h.outside[o].release == release && h.outside[o].module_ != Other
  }

  /** The entries before a private one are adopted. */
  lemma PublicEntriesAdopted(m: System, es: seq<Entry>, release: nat)
    requires m.tape == [] && es != [] && WellFormedPlan(es) && Fits(es, |es|, |m.state.native|)
    requires AllAccounted(m.state.native) && NoLeftover(m.state.native, es)
    requires forall j :: 0 <= j < |es| && es[j].Covered? ==> !m.state.native[es[j].slot].manifest
    ensures var s := AdoptAll(m, es[..|es| - 1], release, 0);
      && s.outcome == Done && s.m.tape == [] && s.m.state == m.state.(native := s.m.state.native)
      && AdoptedFrom(m.state.native, s.m.state.native, es[..|es| - 1], release, 0)
  {
    hide AdoptAll, Names, AdoptedFrom;
    var front := es[..|es| - 1];
    assert !Owned(m.state, front);
    AdoptAllFaultFree(m, front, release, 0);
    AdoptAllUnowned(m, front, release, 0);
  }

  /** What the adopted front of a plan leaves registered. */
  lemma AdoptedRelease(before: seq<Native>, after: seq<Native>, es: seq<Entry>, release: nat)
    requires es != [] && es[|es| - 1].Covered? && Fits(es, |es|, |before|)
    requires AdoptedFrom(before, after, es[..|es| - 1], release, 0)
    requires forall j :: 0 <= j < |es| && es[j].Covered? ==> !before[es[j].slot].manifest
    ensures forall i :: 0 <= i < |es| && Registered(after, es[i]) ==> after[es[i].slot].release == release
    ensures !Registered(after, es[|es| - 1])
  {
    var front := es[..|es| - 1];
    assert !NamesFrom(front, 0, es[|es| - 1].slot);
    forall i | 0 <= i < |front| && es[i].Covered? ensures after[es[i].slot].release == release {
      assert front[i] == es[i];
    }
  }

  /** The transaction of a plan whose private entry joins an owner outside it. */
  lemma TransactJoins(m: System, r: nat, es: seq<Entry>, o: nat) returns (g: Host)
    requires Sane(m.state) && Ready(m.state, es) && m.tape == [] && r < |m.state.receipts|
    requires JoinsOutside(m.state, es, m.state.receipts[r].release, o) && NoLeftover(m.state.native, es)
    ensures Transact(m, r, es) == Step(Failed, Machine(g, []))
    ensures g.cli == Original && g.receipts == m.state.receipts
    ensures forall i :: 0 <= i < |es| && Registered(g.native, es[i]) ==>
      g.native[es[i].slot].release == m.state.receipts[r].release
    ensures g.outside == m.state.outside[o := Joined(m.state.outside[o], es[|es| - 1].state)]
  {
    hide QuiesceAll, AdoptAll, Publish, Adopt, Size, NoLeftover, AdoptedFrom;
    var n, release := |es| - 1, m.state.receipts[r].release;
    ReadyFits(m.state, es);
    QuiesceAllStops(m, es, 0);
    QuiesceAllFaultFree(m, es, 0);
    var q := QuiesceAll(m, es, 0);
    PublicEntriesAdopted(q.m, es, release);
    var a := AdoptAll(q.m, es[..n], release, 0);
    AdoptedRelease(m.state.native, a.m.state.native, es, release);
    AdoptAllSplit(q.m, es, release, 0, n);
    AdoptJoins(a.m, es[n], release, o);
    var b := Adopt(a.m, es[n], release);
    AdoptAllLast(a.m, es, release);
    PublishTakesBack(b.m, r, es, n);
    g := b.m.state;
  }

  lemma AdoptAllLast(m: System, es: seq<Entry>, release: nat)
    requires es != [] && es[|es| - 1].Covered? && Adopt(m, es[|es| - 1], release).outcome == Done
    ensures AdoptAll(m, es, release, |es| - 1) == Adopt(m, es[|es| - 1], release)
  {
    hide Adopt;
  }

  /** The automatic rollback of such a plan starts from `g`, and completes. */
  lemma JoinedRollsBack(h: Host, es: seq<Entry>, release: nat, o: nat) returns (g: Host)
    requires Sane(h) && Ready(h, es) && Size(es) <= ROLLBACK_LIMIT
    requires JoinsOutside(h, es, release, o) && NoLeftover(h.native, es)
    ensures Sane(g) && Open(g, |h.receipts|) && Rollback(Machine(g, []), |h.receipts|).outcome == Done
    ensures Apply(Machine(h, []), es, release) == Recovered(Rollback(Machine(g, []), |h.receipts|))
    ensures g.outside == h.outside[o := Joined(h.outside[o], es[|es| - 1].state)]
  {
    hide Transact, RollbackInner, Begin, Sane, Size, NoLeftover, Ready;
    var m, r := Machine(h, []), |h.receipts|;
    BeginFaultFree(m, es, release);
    var s := Begin(m, es, release);
    BegunSane(h, s.m.state, es);
    g := TransactJoins(s.m, r, es, o);
    TransactSane(s.m, r, es);
    RollbackCanFinish(Machine(g, []), r);
    assert Rollback(Machine(g, []), r) == RollbackInner(Machine(g, []), r);
  }

  /** Without a single fault: a private entry whose owner is registered outside the plan joins
      that owner, the adoption cannot bind it, and the rollback that follows brings the legacy
      units back beside the module, which stays switched on. An owner may stay disabled. */
  lemma OutsideOwnerRunsBoth(h: Host, es: seq<Entry>, release: nat, o: nat)
    requires Sane(h) && Ready(h, es) && Size(es) <= ROLLBACK_LIMIT
    requires JoinsOutside(h, es, release, o) && h.outside[o].active && NoLeftover(h.native, es)
    requires AnyActive(h.legacy)
    ensures var a := Apply(Machine(h, []), es, release);
      && a.verdict == Restored && BothRun(a.m.state) && a.m.state.legacy == h.legacy
      && a.m.state.outside == h.outside[o := Joined(h.outside[o], es[|es| - 1].state)]
  {
    hide Apply, Rollback, Sane, Size, NoLeftover, Ready, Names, Within, OthersOff, SameOutside;
    var g := JoinedRollsBack(h, es, release, o);
    RollbackOutcomes(Machine(g, []), |h.receipts|);
    ApplyOutcomes(Machine(h, []), es, release);
    var a := Apply(Machine(h, []), es, release);
    assert a.m.state.outside[o].active && a.m.state.outside[o].module_ == Enabled;
    var j :| 0 <= j < |h.legacy| && h.legacy[j].active;
    assert a.m.state.legacy[j].active;
  }

  // -----------------------------------------------------------------------------
  // An adoption under other identities beside an open receipt
  // -----------------------------------------------------------------------------

  /** The journal is on disk, and syncing its directory fails. */
  const LOST_SYNC := [OK, OK] + [Fault(true, Failed)]

  lemma LostSyncLeavesReceipt(h: Host, es: seq<Entry>, release: nat)
    requires Ready(h, es)
    ensures Apply(Machine(h, LOST_SYNC), es, release) == Result(Refused, Machine(Begun(h, es, release), []))
  {
    hide Ready, Transact, RollbackInner;
    var m := Machine(h, LOST_SYNC);
    assert m.tape[1..] == [OK] + [Fault(true, Failed)] && m.tape[1..][1..] == [Fault(true, Failed)];
    assert m.tape[1..][1..][1..] == [];
  }

  /** The receipt still validates after a later adoption. */
  lemma StillValid(h: Host, g: Host, r: nat, es: seq<Entry>)
    requires r < |h.receipts| && r < |g.receipts| && g.receipts[r] == h.receipts[r] && Valid(h, r)
    requires Fits(es, |es|, |h.native|)
    requires AdoptedFrom(h.native, g.native, es, h.receipts[r].release, 0)
    ensures Valid(g, r)
  {
    hide Size;
    var release, mine := h.receipts[r].release, h.receipts[r].entries;
    forall i | 0 <= i < |mine| && Registered(g.native, mine[i])
      ensures g.native[mine[i].slot].release == release {
      var slot := mine[i].slot;
      if NamesFrom(es, 0, slot) {
        var j :| 0 <= j < |es| && es[j].Covered? && es[j].slot == slot;
        assert g.native[es[j].slot] == AdoptedAs(h.native[es[j].slot], es[j].state, release);
      } else {
        assert Registered(h.native, mine[i]);
      }
    }
  }

  /** An adoption that completes beside an open receipt of the same release, and a rollback of
      that receipt: the rollback completes, and the host stays exclusive exactly when the receipt
      names every registration or has nothing to bring back. */
  lemma RollbackBesideAdoption(h: Host, r: nat, es: seq<Entry>, release: nat)
    requires Sane(h) && Open(h, r) && Valid(h, r) && h.receipts[r].release == release
    requires Ready(h, es) && !Owned(h, es) && NoLeftover(h.native, es)
    ensures var a := Apply(Machine(h, []), es, release); var s := Rollback(Machine(a.m.state, []), r);
      && a.verdict == Adoption && s.outcome == Done && Sane(a.m.state) && Open(a.m.state, r)
      && a.m.state.receipts[r] == h.receipts[r] && |a.m.state.native| == |h.native|
      && AdoptedFrom(h.native, a.m.state.native, es, release, 0)
      && (Exclusive(s.m.state) <==>
            NamesAll(a.m.state.native, h.receipts[r].entries) || RevivesNothing(h.receipts[r].entries))
  {
    hide Apply, Rollback, Sane, Ready, Owned, NoLeftover, Size, NamesAll, RevivesNothing, AdoptedFrom, Valid;
    CompletesFaultFree(h, es, release);
    AdoptionIsExact(Machine(h, []), es, release);
    ApplyOutcomes(Machine(h, []), es, release);
    ReadyFits(h, es);
    var g := Apply(Machine(h, []), es, release).m.state;
    assert g.receipts[r] == g.receipts[..|h.receipts|][r];
    StillValid(h, g, r, es);
    RollbackCanFinish(Machine(g, []), r);
    RollbackExclusive(Machine(g, []), r);
  }

  /** The receipt leaves out a registration that the later plan runs, and brings a unit back. */
  lemma OtherIdentityRunsBoth(h: Host, r: nat, es: seq<Entry>, release: nat, i: nat, j: nat)
    requires Sane(h) && Open(h, r) && Valid(h, r) && h.receipts[r].release == release
    requires Ready(h, es) && !Owned(h, es) && NoLeftover(h.native, es)
    requires i < |es| && es[i].Covered? && es[i].state.active && !Names(h.receipts[r].entries, es[i].slot)
    requires j < |h.receipts[r].entries| && h.receipts[r].entries[j].Covered? && h.receipts[r].entries[j].state.active
    ensures var a := Apply(Machine(h, []), es, release); var s := Rollback(Machine(a.m.state, []), r);
      a.verdict == Adoption && s.outcome == Done && BothRun(s.m.state) && !Exclusive(s.m.state)
  {
    hide Apply, Rollback, Sane, Ready, Owned, NoLeftover, Size, Names, BothRun, Valid;
    ReadyFits(h, es);
    RollbackBesideAdoption(h, r, es, release);
    var g := Apply(Machine(h, []), es, release).m.state;
    var n := g.native[es[i].slot];
    assert n.manifest && n.active by { assert n == AdoptedAs(h.native[es[i].slot], es[i].state, release); }
    assert !NamesAll(g.native, h.receipts[r].entries);
    assert !RevivesNothing(h.receipts[r].entries);
    ApplyOutcomes(Machine(h, []), es, release);
    SaneFits(g, r);
    RollbackKeepsOrphans(Machine(g, []), r);
    assert g.native[es[i].slot].active;
  }

  lemma SaneFits(h: Host, r: nat)
    requires Sane(h) && r < |h.receipts|
    ensures |h.receipts[r].entries| == |h.legacy|
  {
  }

  /** Two plans for the same host, the second under the identities of another server. The first
      attempt is refused because syncing the directory of its receipt fails; the second one
      completes; and rolling the first receipt back starts the legacy units beside the native
      services of the second. */
  lemma OtherServerRunsBoth(h: Host, first: seq<Entry>, second: seq<Entry>, release: nat, i: nat)
    requires Sane(h) && Ready(h, first) && Size(first) <= ROLLBACK_LIMIT
    requires Ready(h, second) && !Owned(h, second) && NoLeftover(h.native, second)
    requires i < |second| && second[i].Covered? && second[i].state.active && !Names(first, second[i].slot)
    ensures var f := Apply(Machine(h, LOST_SYNC), first, release);
      var a := Apply(Machine(f.m.state, []), second, release);
      var s := Rollback(Machine(a.m.state, []), |h.receipts|);
      && f.verdict == Refused && a.verdict == Adoption && s.outcome == Done
      && BothRun(s.m.state) && !Exclusive(s.m.state)
  {
    hide Apply, Rollback, Sane, Size, Names, Owned, NoLeftover, BothRun, Exclusive, Ready;
    LostSyncLeavesReceipt(h, first, release);
    var g, r := Begun(h, first, release), |h.receipts|;
    BegunSane(h, g, first);
    BegunReady(h, first, release, second);
    SameOwner(h, g, second);
    ReadyFits(h, first);
    ReadyFits(h, second);
    OtherIdentityRunsBoth(g, r, second, release, i, i);
  }

  lemma BegunReady(h: Host, es: seq<Entry>, release: nat, plan: seq<Entry>)
    requires Ready(h, plan)
    ensures Ready(Begun(h, es, release), plan)
  {
    hide Size, WellFormedPlan;
    var g := Begun(h, es, release);
    assert forall i :: 0 <= i < |plan| ==> EntryReady(h, h.legacy[i], plan[i]) == EntryReady(g, g.legacy[i], plan[i]);
  }

  /** A legacy unit that is added between two attempts. The first attempt, which does not cover
      it, is refused as before; the second one covers it as well; and rolling the first receipt
      back starts the units of the first beside the native service of the added one. */
  lemma AddedUnitRunsBoth(h: Host, first: seq<Entry>, second: seq<Entry>, release: nat, i: nat, u: Unit, j: nat)
    requires Sane(h) && Ready(h, first) && Size(first) <= ROLLBACK_LIMIT
    requires i < |h.legacy| && first[i].Skipped? && u.active
    requires Ready(h.(legacy := h.legacy[i := u]), second) && second[i].Covered?
    requires !Owned(h, second) && NoLeftover(h.native, second) && !Names(first, second[i].slot)
    requires j < |first| && first[j].Covered? && first[j].state.active
    ensures var f := Next(h, DoApply(first, release, LOST_SYNC));
      var a := Apply(Machine(Next(f, DoUnit(i, u)), []), second, release);
      var s := Rollback(Machine(a.m.state, []), |h.receipts|);
      && a.verdict == Adoption && s.outcome == Done
      && BothRun(s.m.state) && !Exclusive(s.m.state)
  {
    hide Apply, Rollback, Sane, Size, Names, Owned, NoLeftover, BothRun, Exclusive, Ready;
    LostSyncLeavesReceipt(h, first, release);
    var h', r := h.(legacy := h.legacy[i := u]), |h.receipts|;
    var g := Begun(h', first, release);
    assert Next(Begun(h, first, release), DoUnit(i, u)) == g;
    BegunSane(h, Begun(h, first, release), first);
    NextSane(Begun(h, first, release), DoUnit(i, u));
    BegunReady(h', first, release, second);
    SameOwner(h, g, second);
    ReadyFits(h, first);
    ReadyFits(h', second);
    OtherIdentityRunsBoth(g, r, second, release, i, j);
  }
}
