/** What rolling back achieves exactly, with any number of receipts on the host. */
module AdoptionRecovery {
  import opened AdoptionModel
  import opened AdoptionSafety
  import opened AdoptionRuns

  // -----------------------------------------------------------------------------
  // Both services at once
  // -----------------------------------------------------------------------------

  ghost predicate AnyActive(legacy: seq<Unit>) {
    exists j :: 0 <= j < |legacy| && legacy[j].active
  }

  ghost predicate AnyNative(native: seq<Native>) {
    exists i :: 0 <= i < |native| && native[i].active
  }

  /** A registration outside the plan runs an adopted private entry as its module. */
  ghost predicate ModuleRuns(outside: seq<Native>) {
    exists o :: 0 <= o < |outside| && outside[o].active && outside[o].module_ == Enabled
  }

  ghost predicate BothRun(h: Host) {
    AnyActive(h.legacy) && (AnyNative(h.native) || ModuleRuns(h.outside))
  }

  /** In every run, both kinds of service run at once exactly when a legacy unit runs beside an
      orphan, whose failed installation could not confirm that it was stopped and disabled,
      beside the module of an owner outside the plan, or beside a registration. The last case
      does not arise in a careful run. */
  lemma BothRunOnlyBesideOrphan(h: Host, events: seq<Event>)
    requires Initial(h)
    ensures var g := History(h, events);
      && (BothRun(g) <==>
            && AnyActive(g.legacy)
            && (|| ModuleRuns(g.outside)
                || exists i :: 0 <= i < |g.native| && g.native[i].active && (g.native[i].manifest || g.native[i].lost)))
      && (AllCareful(h, events) && BothRun(g) ==>
            || ModuleRuns(g.outside)
            || exists i :: 0 <= i < |g.native| && g.native[i].active && !g.native[i].manifest && g.native[i].lost)
  {
    hide History;
    HistorySane(h, events);
  }

  /** A running service that a rollback of these entries does not see: an orphan, or a
      registration that they do not name. */
  ghost predicate Unseen(native: seq<Native>, es: seq<Entry>) {
    exists i :: 0 <= i < |native| && native[i].active && !(native[i].manifest && Names(es, i))
  }

  /** After a completed rollback both kinds run at once exactly when a service that it did not
      see, or the module of an owner outside the plan, was running, and some legacy unit was
      found running or recorded as running. */
  lemma RollbackKeepsOrphans(m: System, r: nat)
    requires Sane(m.state) && Open(m.state, r) && Rollback(m, r).outcome == Done
    ensures var es := m.state.receipts[r].entries;
      BothRun(Rollback(m, r).m.state) <==>
        && (Unseen(m.state.native, es) || ModuleRuns(m.state.outside))
        && exists j :: 0 <= j < |m.state.legacy| && j < |es| &&
             (m.state.legacy[j].active || (es[j].Covered? && es[j].state.active))
  {
    hide Rollback, Names;
    RollbackOutcomes(m, r);
    var h := Rollback(m, r).m.state;
    var es := m.state.receipts[r].entries;
    assert AnyNative(h.native) <==> Unseen(m.state.native, es) by {
      if i :| 0 <= i < |m.state.native| && m.state.native[i].active && !(m.state.native[i].manifest && Names(es, i)) {
        assert h.native[i].active;
      }
    }
    if j :| 0 <= j < |m.state.legacy| && (m.state.legacy[j].active || (es[j].Covered? && es[j].state.active)) {
      assert h.legacy[j].active;
    }
  }

  // -----------------------------------------------------------------------------
  // Exact restoration
  // -----------------------------------------------------------------------------

  /** Every unit that the plan covers is as recorded. */
  ghost predicate Matches(legacy: seq<Unit>, es: seq<Entry>) {
    |legacy| == |es| && forall i :: 0 <= i < |es| && es[i].Covered? ==> legacy[i] == es[i].state
  }

  /** From any state of any run, a completed rollback puts the original CLI back and leaves none
      of the registrations that its receipt names. It restores the unit states of its receipt
      exactly when no unit was running that the receipt recorded as stopped. */
  lemma RollbackRestores(m: System, r: nat)
    requires Sane(m.state) && Open(m.state, r) && Rollback(m, r).outcome == Done
    ensures var h := Rollback(m, r).m.state; var es := m.state.receipts[r].entries;
      && h.cli == Original && !AnyNamed(h.native, es) && !Open(h, r)
      && (Matches(h.legacy, es) <==> ActiveWithin(m.state.legacy, es))
  {
    hide Rollback;
    RollbackOutcomes(m, r);
    var h := Rollback(m, r).m.state;
    var es := m.state.receipts[r].entries;
    forall i | 0 <= i < |es| ensures !Registered(h.native, es[i]) {
      assert es[i].Covered? ==> Names(es, es[i].slot);
    }
    if !ActiveWithin(m.state.legacy, es) {
      var i :| 0 <= i < |m.state.legacy| && i < |es| && es[i].Covered? && m.state.legacy[i].active && !es[i].state.active;
      assert h.legacy[i] != es[i].state;
    }
  }

  /** The first adoption that has not been rolled back; its receipt holds the unit states from
      before it. */
  ghost predicate First(h: Host, f: nat) {
    Open(h, f) && forall q :: 0 <= q < f ==> !Open(h, q)
  }

  /** What rolling back an entry makes of a unit. */
  function Brought(u: Unit, e: Entry): Unit {
    if e.Skipped? then u else Unit(e.state.active || u.active, e.state.enabled)
  }

  /** Rolling back any receipt restores the states before the first unfinished adoption exactly
      when, for each unit of that first one, this receipt enables it likewise and what it
      recorded as running, with what runs now, is what the first receipt recorded as running. */
  lemma RollbackRestoresFirst(m: System, r: nat, f: nat)
    requires Sane(m.state) && First(m.state, f) && Open(m.state, r) && Rollback(m, r).outcome == Done
    ensures var es := m.state.receipts[r].entries; var first := m.state.receipts[f].entries;
      && |es| == |first| == |m.state.legacy|
      && (Matches(Rollback(m, r).m.state.legacy, first) <==>
            forall i :: 0 <= i < |first| && first[i].Covered? ==>
              Brought(m.state.legacy[i], es[i]) == first[i].state)
  {
    hide Rollback;
    RollbackOutcomes(m, r);
    var h := Rollback(m, r).m.state;
    var es, first := m.state.receipts[r].entries, m.state.receipts[f].entries;
    assert forall i :: 0 <= i < |es| ==> h.legacy[i] == Brought(m.state.legacy[i], es[i]);
    if Matches(h.legacy, first) {
      forall i | 0 <= i < |first| && first[i].Covered? ensures Brought(m.state.legacy[i], es[i]) == first[i].state {
        assert h.legacy[i] == first[i].state;
      }
    }
  }

  /** Rolling back another receipt after the first one undoes the restoration whenever the two
      recorded a unit as enabled differently. */
  lemma LaterReceiptUndoesRestoration(m: System, f: nat, r: nat, faults: seq<Fault>, i: nat)
    requires Sane(m.state) && Open(m.state, f) && Open(m.state, r) && f != r && i < |m.state.legacy|
    requires Rollback(m, f).outcome == Done && Rollback(Machine(Rollback(m, f).m.state, faults), r).outcome == Done
    requires var a, b := m.state.receipts[f].entries, m.state.receipts[r].entries;
      i < |a| && i < |b| && a[i].Covered? && b[i].Covered? && a[i].state.enabled != b[i].state.enabled
    ensures !Matches(Rollback(Machine(Rollback(m, f).m.state, faults), r).m.state.legacy, m.state.receipts[f].entries)
  {
    hide Rollback;
    RollbackOutcomes(m, f);
    var g := Rollback(m, f).m.state;
    RollbackOutcomes(Machine(g, faults), r);
    var h := Rollback(Machine(g, faults), r).m.state;
    assert g.receipts[r].entries == m.state.receipts[r].entries;
    assert h.legacy[i].enabled == m.state.receipts[r].entries[i].state.enabled;
  }

  /** A second rollback is a no-op. */
  lemma RollbackTwice(m: System, r: nat, faults: seq<Fault>)
    requires Sane(m.state) && Open(m.state, r) && Rollback(m, r).outcome == Done
    ensures Rollback(Machine(Rollback(m, r).m.state, faults), r).m.state == Rollback(m, r).m.state
  {
    hide Rollback;
    RollbackOutcomes(m, r);
    RollbackOutcomes(Machine(Rollback(m, r).m.state, faults), r);
  }

  // -----------------------------------------------------------------------------
  // Runs that restore exactly
  // -----------------------------------------------------------------------------

  /** Every enabled unit was also running, so that a reboot starts nothing new. */
  predicate BootConsistent(es: seq<Entry>) {
    forall i :: 0 <= i < |es| && es[i].Covered? && es[i].state.enabled ==> es[i].state.active
  }

  predicate Calm(events: seq<Event>) {
    || (forall k :: 0 <= k < |events| ==> !events[k].DoReboot?)
    || (forall k :: 0 <= k < |events| && events[k].DoApply? ==> BootConsistent(events[k].entries))
  }

  /** No later adoption is unfinished. */
  ghost predicate Newest(h: Host, r: nat) {
    forall q :: r < q < |h.receipts| ==> !Open(h, q)
  }

  /** Receipts are rolled back newest first, and legacy units are changed by hand only while no
      adoption is unfinished. */
  ghost predicate Orderly(h: Host, events: seq<Event>)
    decreases |events|
  {
    events != [] ==>
      var before, last := events[..|events| - 1], events[|events| - 1];
      && Orderly(h, before)
      && (last.DoRollback? ==> Newest(History(h, before), last.receipt))
      && (last.DoUnit? ==> forall r: nat :: !Open(History(h, before), r))
  }

  function StateOf(e: Entry): Unit {
    if e.Skipped? then OFF else e.state
  }

  ghost predicate EntriesWithin(a: seq<Entry>, b: seq<Entry>) {
    forall i :: 0 <= i < |a| && i < |b| && b[i].Covered? ==>
      (StateOf(a[i]).active ==> b[i].state.active) && (StateOf(a[i]).enabled ==> b[i].state.enabled)
  }

  /** What runs now, and what each later receipt recorded, was recorded by the earlier ones. */
  ghost predicate Nested(h: Host, boot: bool) {
    && (forall r: nat :: Open(h, r) ==> Within(h.legacy, h.receipts[r].entries))
    && (forall r: nat, s: nat :: r < s && Open(h, r) && Open(h, s) ==>
          EntriesWithin(h.receipts[s].entries, h.receipts[r].entries))
    && (boot ==> forall r: nat :: Open(h, r) ==> BootConsistent(h.receipts[r].entries))
  }

  lemma ApplyNested(h: Host, es: seq<Entry>, release: nat, faults: seq<Fault>, boot: bool)
    requires Sane(h) && Nested(h, boot) && (boot ==> BootConsistent(es))
    ensures Nested(Apply(Machine(h, faults), es, release).m.state, boot)
  {
    hide Apply, Sane, AllRegistered, Exclusive, SameOutside, AnyNamed, Ready;
    ApplyOutcomes(Machine(h, faults), es, release);
    var g := Apply(Machine(h, faults), es, release).m.state;
    var n := |h.receipts|;
    if g.receipts != h.receipts {
      assert forall r: nat :: Open(g, r) && r < n ==> g.receipts[r] == h.receipts[r] && Open(h, r);
      forall r: nat | Open(g, r) ensures Within(g.legacy, g.receipts[r].entries) {
        if r < n {
          ReadyFits(h, es);
          NarrowWithin(g.legacy, es, h.legacy, h.receipts[r].entries);
        }
      }
      forall r: nat | r < n && Open(g, r) ensures EntriesWithin(es, g.receipts[r].entries) {
        ReadyFits(h, es);
        NarrowWithin(g.legacy, es, h.legacy, h.receipts[r].entries);
      }
    }
  }

  lemma NarrowWithin(units: seq<Unit>, es: seq<Entry>, legacy: seq<Unit>, outer: seq<Entry>)
    requires Within(units, es) && Within(legacy, outer) && |units| == |legacy| == |es|
    requires OthersOff(units, es) && OthersOff(legacy, es)
    requires forall i :: 0 <= i < |es| && es[i].Covered? ==> es[i].state == legacy[i]
    ensures Within(units, outer) && EntriesWithin(es, outer)
  {
  }

  lemma RollbackNested(h: Host, r: nat, faults: seq<Fault>, boot: bool)
    requires Sane(h) && Nested(h, boot) && Newest(h, r)
    ensures Nested(Rollback(Machine(h, faults), r).m.state, boot)
  {
    hide Rollback;
    RollbackOutcomes(Machine(h, faults), r);
    var g := Rollback(Machine(h, faults), r).m.state;
    if Open(h, r) {
      forall q: nat | Open(g, q) ensures Within(g.legacy, g.receipts[q].entries) {
        assert Open(h, q) && q <= r && g.receipts[q].entries == h.receipts[q].entries;
      }
      assert forall q: nat :: Open(g, q) ==> Open(h, q) && g.receipts[q].entries == h.receipts[q].entries;
    }
  }

  lemma RebootNested(h: Host)
    requires Nested(h, true)
    ensures Nested(Reboot(h), true)
  {
    var g := Reboot(h);
    forall r: nat | Open(g, r) ensures Within(g.legacy, g.receipts[r].entries) {
      assert Open(h, r) && BootConsistent(h.receipts[r].entries);
    }
    assert forall r: nat :: Open(g, r) ==> Open(h, r);
  }

  lemma EditNested(h: Host, r: nat, intact: bool, boot: bool)
    requires Nested(h, boot)
    ensures Nested(SetReceipt(h, r, ReceiptAt(h, r).(intact := intact)), boot)
  {
    var g := SetReceipt(h, r, ReceiptAt(h, r).(intact := intact));
    assert forall q: nat :: Open(g, q) ==> Open(h, q) && g.receipts[q].entries == h.receipts[q].entries;
  }

  lemma ElsewhereNested(h: Host, cli: Cli, outside: seq<Native>, boot: bool)
    requires Nested(h, boot)
    ensures Nested(h.(cli := cli), boot) && Nested(h.(outside := outside), boot)
  {
    assert forall q: nat :: Open(h.(cli := cli), q) == Open(h, q) == Open(h.(outside := outside), q);
  }

  lemma UnitNested(h: Host, i: nat, unit: Unit, boot: bool)
    requires forall r: nat :: !Open(h, r)
    ensures i < |h.legacy| ==> Nested(h.(legacy := h.legacy[i := unit]), boot)
    ensures Nested(h, boot)
  {
    if i < |h.legacy| {
      var g := h.(legacy := h.legacy[i := unit]);
      assert forall r: nat :: Open(g, r) == Open(h, r);
    }
  }

  lemma NextNested(h: Host, e: Event, boot: bool)
    requires Sane(h) && Nested(h, boot)
    requires e.DoReboot? ==> boot
    requires boot && e.DoApply? ==> BootConsistent(e.entries)
    requires e.DoRollback? ==> Newest(h, e.receipt)
    requires e.DoUnit? ==> forall r: nat :: !Open(h, r)
    ensures Nested(Next(h, e), boot)
  {
    hide Apply, Rollback, Reboot, Nested, Sane, SetReceipt;
    match e
    case DoApply(es, release, faults) => ApplyNested(h, es, release, faults, boot);
    case DoRollback(r, faults) => RollbackNested(h, r, faults, boot);
    case DoReboot => RebootNested(h);
    case DoEdit(r, intact) => EditNested(h, r, intact, boot);
    case DoLink(cli) => ElsewhereNested(h, cli, h.outside, boot);
    case DoUnit(i, unit) => UnitNested(h, i, unit, boot);
    case DoOutside(outside) => ElsewhereNested(h, h.cli, outside, boot);
  }

  lemma {:induction false} HistoryNested(h: Host, events: seq<Event>, boot: bool)
    requires Initial(h) && Orderly(h, events)
    requires !boot ==> forall k :: 0 <= k < |events| ==> !events[k].DoReboot?
    requires boot ==> forall k :: 0 <= k < |events| && events[k].DoApply? ==> BootConsistent(events[k].entries)
    ensures Nested(History(h, events), boot)
    decreases |events|
  {
    hide Next, Sane;
    if events != [] {
      var before := events[..|events| - 1];
      HistoryNested(h, before, boot);
      HistorySane(h, before);
      NextNested(History(h, before), events[|events| - 1], boot);
    }
  }

  /** When receipts are rolled back newest first and units are left alone in between, and without
      a reboot or with plans whose enabled units were all running, a completed rollback restores
      every unit state of its receipt, whatever else happened before it. The last one restores
      the states before the first unfinished adoption. */
  lemma CalmRunsRestoreExactly(h: Host, events: seq<Event>, r: nat, faults: seq<Fault>)
    requires Initial(h) && Calm(events) && Orderly(h, events)
    requires Open(History(h, events), r) && Newest(History(h, events), r)
    ensures var s := Rollback(Machine(History(h, events), faults), r);
      s.outcome == Done ==> Matches(s.m.state.legacy, History(h, events).receipts[r].entries)
  {
    hide History, Rollback;
    var boot := exists k :: 0 <= k < |events| && events[k].DoReboot?;
    HistoryNested(h, events, boot);
    HistorySane(h, events);
    var m := Machine(History(h, events), faults);
    if Rollback(m, r).outcome == Done {
      assert Within(m.state.legacy, m.state.receipts[r].entries);
      RollbackRestores(m, r);
    }
  }

  // -----------------------------------------------------------------------------
  // Rollback without faults
  // -----------------------------------------------------------------------------

  lemma UninstallFaultFree(m: Registration)
    requires m.tape == []
    ensures Uninstall(m).outcome == Done && Uninstall(m).m.tape == []
  {
  }

  lemma {:induction false} UninstallAllFaultFree(m: System, es: seq<Entry>, start: seq<Native>, k: nat)
    requires k <= |es| && m.tape == []
    ensures UninstallAll(m, es, start, k).outcome == Done && UninstallAll(m, es, start, k).m.tape == []
    decreases |es| - k
  {
    hide Uninstall;
    if k < |es| {
      if Registered(start, es[k]) {
        UninstallFaultFree(NativePart(m, es[k].slot));
        UninstallAllFaultFree(WithNative(m, es[k].slot, Uninstall(NativePart(m, es[k].slot))).m, es, start, k + 1);
      } else {
        UninstallAllFaultFree(m, es, start, k + 1);
      }
    }
  }

  lemma {:induction false} ReviveAllFaultFree(m: System, es: seq<Entry>, k: nat)
    requires k <= |es| && m.tape == []
    ensures ReviveAll(m, es, k).outcome == Done && ReviveAll(m, es, k).m.tape == []
    decreases |es| - k
  {
    if k < |es| {
      ReviveAllFaultFree(
        if es[k].Skipped? then m else WithLegacy(m, k, Revive(LegacyPart(m, k), es[k].state)).m, es, k + 1);
    }
  }

  predicate OwnCli(h: Host, r: nat) {
    h.cli == Original || h.cli == Adopted(ReceiptAt(h, r).release)
  }

  lemma RestoreCliFaultFree(m: System, r: nat)
    requires m.tape == []
    ensures (RestoreCli(m, r).outcome == Done <==> OwnCli(m.state, r)) && RestoreCli(m, r).m.tape == []
  {
  }

  /** Rollback is always able to finish: without faults it completes from every state in which
      the receipt validates and the CLI is the original or the receipt's own release. */
  lemma RollbackCanFinish(m: System, r: nat)
    requires m.tape == [] && Open(m.state, r)
    ensures Rollback(m, r).outcome == Done <==> Valid(m.state, r) && OwnCli(m.state, r)
  {
    hide UninstallAll, ReviveAll, RestoreCli, Valid;
    var es := m.state.receipts[r].entries;
    var m2 := PutPhase(m, r, RollingBack).m;
    RestoreCliFaultFree(m2, r);
    var m3 := RestoreCli(m2, r).m;
    UninstallAllFaultFree(m3, es, m.state.native, 0);
    ReviveAllFaultFree(UninstallAll(m3, es, m.state.native, 0).m, es, 0);
  }

  /** Inspection admits 258 registrations, recovery only 257: with one more, no rollback ever
      changes anything. */
  lemma OversizedAdoptionCannotBeRolledBack(m: System, r: nat)
    requires Open(m.state, r) && Size(m.state.receipts[r].entries) > ROLLBACK_LIMIT
    ensures Rollback(m, r).outcome != Done && Rollback(m, r).m.state == m.state
  {
    hide RollbackInner;
    InvalidReceiptChangesNothing(Touch(m).m, r);
  }
}
