/** When an adoption completes, and what it then leaves running. */
module AdoptionExact {
  import opened AdoptionModel
  import opened AdoptionSafety
  import opened AdoptionRuns

  /** A unit file that no manifest accounts for. */
  predicate Leftover(n: Native) {
    n.unit && !n.manifest
  }

  /** The private entry has, or will have by its turn, a registered public owner. */
  ghost predicate Owned(h: Host, es: seq<Entry>) {
    es != [] && es[|es| - 1].Covered? &&
    match es[|es| - 1].owner
    case Nobody => false
    case Inside(s) => Names(es, s) || (s < |h.native| && h.native[s].manifest)
    case Outside(o) => o < |h.outside| && h.outside[o].manifest
  }

  /** No registration of the plan meets a leftover unit file. */
  ghost predicate NoLeftover(native: seq<Native>, es: seq<Entry>) {
    forall i :: 0 <= i < |es| && es[i].Covered? && es[i].slot < |native| ==> !native[es[i].slot].unit
  }

  /** A registration made over whatever ran before it: nothing is stopped, and only a running
      entry is disabled again. */
  function AdoptedAs(n: Native, want: Unit, release: nat): Native {
    n.(manifest := true, unit := true, release := release,
       active := n.active || want.active,
       enabled := if want.active then want.enabled else n.enabled || want.enabled)
  }

  lemma AdoptUnpaired(m: System, e: Entry, release: nat)
    requires e.Covered? && e.slot < |m.state.native|
    requires Accounted(m.state.native[e.slot]) && !m.state.native[e.slot].manifest
    requires !Paired(m, e) && Adopt(m, e, release).outcome == Done
    ensures Adopt(m, e, release).m.state ==
      m.state.(native := m.state.native[e.slot := AdoptedAs(m.state.native[e.slot], e.state, release)])
    ensures !m.state.native[e.slot].unit
  {
    hide Install;
    InstallAccounted(NativePart(m, e.slot), e.state, release);
  }

  /** Joining an owner leaves the entry without a registration of its own. */
  lemma AdoptPaired(m: System, e: Entry, release: nat)
    requires e.Covered? && e.slot < |m.state.native| && Paired(m, e) && e.owner != Inside(e.slot)
    ensures var h := Adopt(m, e, release).m.state;
      |h.native| == |m.state.native| && h.native[e.slot] == m.state.native[e.slot]
  {
    hide Join;
  }

  lemma UnownedIsUnpaired(m: System, es: seq<Entry>, k: nat)
    requires k < |es| && es[k].Covered? && WellFormedPlan(es) && !Owned(m.state, es)
    ensures !Paired(m, es[k])
  {
    hide Names;
    assert k < |es| - 1 ==> !Private(es[k]);
  }

  /** Entries from `k` on are adopted, nothing else changes. */
  ghost predicate AdoptedFrom(before: seq<Native>, after: seq<Native>, es: seq<Entry>, release: nat, k: nat) {
    && |after| == |before|
    && (forall j :: k <= j < |es| && es[j].Covered? && es[j].slot < |before| ==>
          after[es[j].slot] == AdoptedAs(before[es[j].slot], es[j].state, release))
    && (forall j :: 0 <= j < |before| && !NamesFrom(es, k, j) ==> after[j] == before[j])
  }

  lemma AdoptedStep(before: seq<Native>, after: seq<Native>, es: seq<Entry>, release: nat, k: nat)
    requires k < |es| && Fits(es, |es|, |before|)
    requires if es[k].Skipped? then AdoptedFrom(before, after, es, release, k + 1)
             else AdoptedFrom(before[es[k].slot := AdoptedAs(before[es[k].slot], es[k].state, release)], after, es, release, k + 1)
    ensures AdoptedFrom(before, after, es, release, k)
  {
    assert forall j :: NamesFrom(es, k + 1, j) ==> NamesFrom(es, k, j);
    if es[k].Covered? {
      var slot := es[k].slot;
      assert NamesFrom(es, k, slot) && !NamesFrom(es, k + 1, slot);
      assert forall j :: k < j < |es| && es[j].Covered? ==> es[j].slot != slot;
    }
  }

  lemma {:induction false} AdoptAllUnowned(m: System, es: seq<Entry>, release: nat, k: nat)
    requires k <= |es| && Fits(es, |es|, |m.state.native|) && WellFormedPlan(es) && !Owned(m.state, es)
    requires AllAccounted(m.state.native)
    requires forall j :: k <= j < |es| && es[j].Covered? ==> !m.state.native[es[j].slot].manifest
    requires AdoptAll(m, es, release, k).outcome == Done
    ensures var h := AdoptAll(m, es, release, k).m.state;
      && h == m.state.(native := h.native) && AdoptedFrom(m.state.native, h.native, es, release, k)
      && (forall j :: k <= j < |es| && es[j].Covered? ==> !m.state.native[es[j].slot].unit)
    decreases |es| - k
  {
    hide Adopt, AdoptedFrom, Names;
    if k < |es| {
      if es[k].Skipped? {
        AdoptAllUnowned(m, es, release, k + 1);
      } else {
        UnownedIsUnpaired(m, es, k);
        AdoptUnpaired(m, es[k], release);
        var g := Adopt(m, es[k], release).m;
        assert !Owned(g.state, es) by { StillUnowned(m.state, g.state, es, k); }
        AdoptAllUnowned(g, es, release, k + 1);
      }
      AdoptedStep(m.state.native, AdoptAll(m, es, release, k).m.state.native, es, release, k);
    } else {
      assert AdoptedFrom(m.state.native, m.state.native, es, release, k) by { NothingAdopted(m.state.native, es, release); }
    }
  }

  lemma NothingAdopted(native: seq<Native>, es: seq<Entry>, release: nat)
    ensures AdoptedFrom(native, native, es, release, |es|)
  {
  }

  lemma StillUnowned(h: Host, g: Host, es: seq<Entry>, k: nat)
    requires k < |es| && es[k].Covered? && es[k].slot < |h.native| && !Owned(h, es)
    requires g.outside == h.outside && |g.native| == |h.native|
    requires forall j :: 0 <= j < |h.native| && j != es[k].slot ==> g.native[j] == h.native[j]
    ensures !Owned(g, es)
  {
    assert Names(es, es[k].slot);
  }

  /** The owner of the last entry is registered by the time it is adopted. */
  lemma OwnedIsPaired(m: System, es: seq<Entry>)
    requires Fits(es, |es|, |m.state.native|) && WellFormedPlan(es) && Owned(m.state, es)
    requires forall j :: 0 <= j < |es| - 1 && es[j].Covered? ==> m.state.native[es[j].slot].manifest
    ensures Paired(m, es[|es| - 1])
  {
    var last := es[|es| - 1];
    if last.owner.Inside? && Names(es, last.owner.slot) {
      var i :| 0 <= i < |es| && es[i].Covered? && es[i].slot == last.owner.slot;
      assert i < |es| - 1 && Private(last);
    }
  }

  lemma StillOwned(h: Host, g: Host, es: seq<Entry>, k: nat)
    requires k < |es| && es[k].Covered? && es[k].slot < |h.native| && Owned(h, es)
    requires g.outside == h.outside && |g.native| == |h.native| && g.native[es[k].slot].manifest
    requires forall j :: 0 <= j < |h.native| && j != es[k].slot ==> g.native[j] == h.native[j]
    ensures Owned(g, es)
  {
  }

  lemma {:induction false} AdoptAllOwned(m: System, es: seq<Entry>, release: nat, k: nat)
    requires k < |es| && Fits(es, |es|, |m.state.native|) && WellFormedPlan(es) && Owned(m.state, es)
    requires AllAccounted(m.state.native)
    requires forall j :: 0 <= j < k && es[j].Covered? ==> m.state.native[es[j].slot].manifest
    requires forall j :: k <= j < |es| && es[j].Covered? ==> !m.state.native[es[j].slot].manifest
    requires AdoptAll(m, es, release, k).outcome == Done
    ensures !Registered(AdoptAll(m, es, release, k).m.state.native, es[|es| - 1])
    decreases |es| - k
  {
    hide Adopt, Names, Owned;
    assert es[|es| - 1].Covered? by { OwnedIsCovered(m.state, es); }
    if k == |es| - 1 {
      OwnedIsPaired(m, es);
      assert es[k].owner != Inside(es[k].slot) by { OwnedIsCovered(m.state, es); assert Private(es[k]); }
      AdoptPaired(m, es[k], release);
    } else if es[k].Skipped? {
      AdoptAllOwned(m, es, release, k + 1);
    } else {
      assert !Private(es[k]);
      AdoptUnpaired(m, es[k], release);
      var g := Adopt(m, es[k], release).m;
      StillOwned(m.state, g.state, es, k);
      AdoptAllOwned(g, es, release, k + 1);
    }
  }

  lemma OwnedIsCovered(h: Host, es: seq<Entry>)
    requires Owned(h, es)
    ensures es != [] && es[|es| - 1].Covered? && es[|es| - 1].owner != Nobody
  {
  }

  /** Each covered service is as active and as enabled as recorded. */
  ghost predicate Exact(native: seq<Native>, es: seq<Entry>) {
    forall i :: 0 <= i < |es| && es[i].Covered? ==>
      es[i].slot < |native| && Unit(native[es[i].slot].active, native[es[i].slot].enabled) == es[i].state
  }

  /** No service runs whose entry is stopped, and none is enabled whose entry is neither running
      nor enabled. */
  ghost predicate Clear(native: seq<Native>, es: seq<Entry>) {
    forall i :: 0 <= i < |es| && es[i].Covered? && es[i].slot < |native| && !es[i].state.active ==>
      !native[es[i].slot].active && (native[es[i].slot].enabled ==> es[i].state.enabled)
  }

  lemma ExactIffClear(before: seq<Native>, after: seq<Native>, es: seq<Entry>, release: nat)
    requires AdoptedFrom(before, after, es, release, 0) && Fits(es, |es|, |before|)
    ensures Exact(after, es) <==> Clear(before, es)
  {
    hide NamesFrom;
    if Exact(after, es) {
      forall i | 0 <= i < |es| && es[i].Covered? && !es[i].state.active
        ensures !before[es[i].slot].active && (before[es[i].slot].enabled ==> es[i].state.enabled) {
        assert after[es[i].slot] == AdoptedAs(before[es[i].slot], es[i].state, release);
      }
    }
  }

  /** A completed adoption has no owned entry and met no leftover unit. It runs each native
      service exactly as its legacy unit was recorded if and only if no service was running, or
      enabled, that the plan records as stopped. */
  lemma AdoptionIsExact(m: System, es: seq<Entry>, release: nat)
    requires Sane(m.state) && Apply(m, es, release).verdict == Adoption
    ensures var h := Apply(m, es, release).m.state;
      && !Owned(m.state, es) && NoLeftover(m.state.native, es)
      && AdoptedFrom(m.state.native, h.native, es, release, 0)
      && h.outside == m.state.outside
      && (Exact(h.native, es) <==> Clear(m.state.native, es))
  {
    hide QuiesceAll, AdoptAll, Publish, Begin, Size, AdoptedFrom, Exact, Clear, Names;
    BeginOutcomes(m, es, release);
    ReadyFits(m.state, es);
    var r := |m.state.receipts|;
    var s := Begin(m, es, release);
    QuiesceAllStops(s.m, es, 0);
    var q := QuiesceAll(s.m, es, 0);
    AdoptAllAccounted(q.m, es, release, 0);
    var t := AdoptAll(q.m, es, release, 0);
    PublishKeeps(Touch(t.m).m, r, es);
    if Owned(m.state, es) {
      OwnedIsCovered(m.state, es);
      AdoptAllOwned(q.m, es, release, 0);
      assert false;
    }
    AdoptAllUnowned(q.m, es, release, 0);
    ExactIffClear(m.state.native, Apply(m, es, release).m.state.native, es, release);
  }

  // -----------------------------------------------------------------------------
  // Adoption without faults
  // -----------------------------------------------------------------------------

  lemma BeginFaultFree(m: System, es: seq<Entry>, release: nat)
    requires m.tape == []
    ensures Begin(m, es, release) ==
      Skip(Machine(m.state.(receipts := m.state.receipts + [Receipt(Preparing, es, false, true, release)]), []))
  {
  }

  lemma {:induction false} QuiesceAllFaultFree(m: System, es: seq<Entry>, k: nat)
    requires k <= |es| && m.tape == []
    ensures QuiesceAll(m, es, k).outcome == Done && QuiesceAll(m, es, k).m.tape == []
    decreases |es| - k
  {
    if k < |es| {
      QuiesceAllFaultFree(
        if es[k].Skipped? then m else WithLegacy(m, k, Quiesce(LegacyPart(m, k), es[k].state)).m, es, k + 1);
    }
  }

  lemma InstallFaultFree(m: Registration, want: Unit, release: nat)
    requires m.tape == [] && !Leftover(m.state)
    ensures Install(m, want, release).outcome == Done && Install(m, want, release).m.tape == []
  {
  }

  lemma AdoptFaultFree(m: System, e: Entry, release: nat)
    requires m.tape == [] && e.Covered? && e.slot < |m.state.native| && !Leftover(m.state.native[e.slot]) && !Paired(m, e)
    ensures Adopt(m, e, release).outcome == Done && Adopt(m, e, release).m.tape == []
  {
    hide Install;
    InstallFaultFree(NativePart(m, e.slot), e.state, release);
  }

  lemma {:induction false} AdoptAllFaultFree(m: System, es: seq<Entry>, release: nat, k: nat)
    requires k <= |es| && Fits(es, |es|, |m.state.native|) && WellFormedPlan(es) && !Owned(m.state, es)
    requires m.tape == [] && AllAccounted(m.state.native)
    requires forall j :: k <= j < |es| && es[j].Covered? ==>
      !m.state.native[es[j].slot].manifest && !m.state.native[es[j].slot].unit
    ensures AdoptAll(m, es, release, k).outcome == Done && AdoptAll(m, es, release, k).m.tape == []
    decreases |es| - k
  {
    hide Adopt, Names, Owned;
    if k < |es| {
      if es[k].Skipped? {
        AdoptAllFaultFree(m, es, release, k + 1);
      } else {
        UnownedIsUnpaired(m, es, k);
        AdoptFaultFree(m, es[k], release);
        AdoptUnpaired(m, es[k], release);
        var g := Adopt(m, es[k], release).m;
        StillUnowned(m.state, g.state, es, k);
        AdoptAllFaultFree(g, es, release, k + 1);
      }
    }
  }

  lemma {:induction false} BindAllFaultFree(m: System, es: seq<Entry>, k: nat)
    requires k <= |es| && m.tape == [] && AllRegistered(m.state.native, es)
    ensures BindAll(m, es, k) == Skip(m)
    decreases |es| - k
  {
    if k < |es| {
      BindAllFaultFree(m, es, k + 1);
    }
  }

  lemma PublishFaultFree(m: System, r: nat, es: seq<Entry>)
    requires m.tape == [] && AllRegistered(m.state.native, es) && m.state.cli == Original
    ensures Publish(m, r, es).outcome == Done
  {
    hide BindAll;
    BindAllFaultFree(Machine(m.state.(cli := Adopted(ReceiptAt(m.state, r).release)), []), es, 0);
  }

  lemma CompletesFaultFree(h: Host, es: seq<Entry>, release: nat)
    requires Sane(h) && Ready(h, es) && !Owned(h, es) && NoLeftover(h.native, es)
    ensures Apply(Machine(h, []), es, release).verdict == Adoption
  {
    hide QuiesceAll, AdoptAll, Publish, Begin, Size, Names, Owned;
    var m := Machine(h, []);
    ReadyFits(h, es);
    BeginFaultFree(m, es, release);
    var s := Begin(m, es, release);
    QuiesceAllStops(s.m, es, 0);
    QuiesceAllFaultFree(s.m, es, 0);
    var q := QuiesceAll(s.m, es, 0);
    assert !Owned(q.m.state, es) by { SameOwner(h, q.m.state, es); }
    AdoptAllFaultFree(q.m, es, release, 0);
    AdoptAllUnowned(q.m, es, release, 0);
    var t := AdoptAll(q.m, es, release, 0);
    PublishFaultFree(Touch(t.m).m, |h.receipts|, es);
  }

  lemma SameOwner(h: Host, g: Host, es: seq<Entry>)
    requires g.native == h.native && g.outside == h.outside
    ensures Owned(g, es) == Owned(h, es)
  {
  }

  /** Without faults an accepted plan is adopted exactly when its private entry has no registered
      owner and no unit file is left over from an earlier attempt. */
  lemma FaultFreeAdoption(h: Host, es: seq<Entry>, release: nat)
    requires Sane(h) && Ready(h, es)
    ensures Apply(Machine(h, []), es, release).verdict == Adoption <==>
      !Owned(h, es) && NoLeftover(h.native, es)
  {
    hide Apply, Sane, Ready, Owned, NoLeftover;
    if Apply(Machine(h, []), es, release).verdict == Adoption {
      AdoptionIsExact(Machine(h, []), es, release);
    }
    if !Owned(h, es) && NoLeftover(h.native, es) {
      CompletesFaultFree(h, es, release);
    }
  }

  /** The orphan of a failed installation makes a later adoption inexact: its service is recorded
      as stopped, and runs. */
  lemma OrphanMakesAdoptionInexact(h: Host, es: seq<Entry>, release: nat, i: nat)
    requires Sane(h) && Ready(h, es) && !Owned(h, es) && NoLeftover(h.native, es)
    requires i < |es| && es[i].Covered? && es[i].slot < |h.native|
    requires h.native[es[i].slot].active && !es[i].state.active
    ensures var a := Apply(Machine(h, []), es, release);
      a.verdict == Adoption && !Exact(a.m.state.native, es)
  {
    hide Apply, Sane, Ready, Owned, NoLeftover;
    FaultFreeAdoption(h, es, release);
    AdoptionIsExact(Machine(h, []), es, release);
  }

  // -----------------------------------------------------------------------------
  // A unit file left over
  // -----------------------------------------------------------------------------

  lemma AdoptKeepsLeftover(m: System, e: Entry, release: nat, i: nat)
    requires i < |m.state.native| && Leftover(m.state.native[i]) && e.Covered?
    ensures var h := Adopt(m, e, release).m.state;
      |h.native| == |m.state.native| && h.native[i] == m.state.native[i]
  {
    hide WriteFiles, Activate, Join;
  }

  lemma {:induction false} AdoptAllKeepsLeftover(m: System, es: seq<Entry>, release: nat, k: nat, i: nat)
    requires k <= |es| && i < |m.state.native| && Leftover(m.state.native[i])
    ensures var h := AdoptAll(m, es, release, k).m.state;
      |h.native| == |m.state.native| && h.native[i] == m.state.native[i]
    decreases |es| - k
  {
    hide Adopt;
    if k < |es| {
      if es[k].Skipped? {
        AdoptAllKeepsLeftover(m, es, release, k + 1, i);
      } else {
        AdoptKeepsLeftover(m, es[k], release, i);
        if Adopt(m, es[k], release).outcome == Done {
          AdoptAllKeepsLeftover(Adopt(m, es[k], release).m, es, release, k + 1, i);
        }
      }
    }
  }

  lemma TransactKeepsLeftover(m: System, r: nat, es: seq<Entry>, i: nat)
    requires Sane(m.state) && Ready(m.state, es) && r < |m.state.receipts|
    requires i < |m.state.native| && Leftover(m.state.native[i])
    ensures var s := Transact(m, r, es);
      && |s.m.state.native| == |m.state.native| && s.m.state.native[i] == m.state.native[i]
      && (Names(es, i) ==> s.outcome != Done)
  {
    hide QuiesceAll, AdoptAll, Publish, Ready;
    ReadyFits(m.state, es);
    QuiesceAllStops(m, es, 0);
    var q := QuiesceAll(m, es, 0);
    var release := m.state.receipts[r].release;
    AdoptAllKeepsLeftover(q.m, es, release, 0, i);
    AdoptAllAccounted(q.m, es, release, 0);
    PublishKeeps(Touch(AdoptAll(q.m, es, release, 0).m).m, r, es);
  }

  lemma ApplyKeepsLeftover(m: System, es: seq<Entry>, release: nat, i: nat)
    requires Sane(m.state) && i < |m.state.native| && Leftover(m.state.native[i])
    ensures var a := Apply(m, es, release);
      && (Names(es, i) ==> a.verdict != Adoption)
      && |a.m.state.native| == |m.state.native| && a.m.state.native[i] == m.state.native[i]
  {
    hide Transact, RollbackInner, Begin, Ready, Fits, AllAccounted, Names;
    if Ready(m.state, es) {
      BeginOutcomes(m, es, release);
      var s := Begin(m, es, release);
      if s.outcome == Done {
        var r := |m.state.receipts|;
        BegunSane(m.state, s.m.state, es);
        TransactKeepsLeftover(s.m, r, es, i);
        TransactSane(s.m, r, es);
        var t := Transact(s.m, r, es);
        if t.outcome == Failed {
          RollbackInnerSane(t.m, r);
        }
      }
    }
  }

  lemma NextKeepsLeftover(h: Host, e: Event, i: nat)
    requires Sane(h) && i < |h.native| && Leftover(h.native[i])
    ensures |Next(h, e).native| == |h.native| && Leftover(Next(h, e).native[i])
  {
    hide Apply, Rollback, Names;
    match e
    case DoApply(es, release, faults) => ApplyKeepsLeftover(Machine(h, faults), es, release, i);
    case DoRollback(r, faults) => RollbackOutcomes(Machine(h, faults), r);
    case DoReboot =>
    case DoEdit(_, _) =>
    case DoLink(_) =>
    case DoUnit(_, _) =>
    case DoOutside(_) =>
  }

  /** A unit file without a manifest stays for good, and no later adoption under its identity
      ever completes. */
  lemma {:induction false} LeftoverBlocksForever(
      h: Host, events: seq<Event>, i: nat, es: seq<Entry>, release: nat, faults: seq<Fault>)
    requires Sane(h) && i < |h.native| && Leftover(h.native[i])
    ensures var g := History(h, events);
      && Sane(g) && |g.native| == |h.native| && Leftover(g.native[i])
      && (Names(es, i) ==> Apply(Machine(g, faults), es, release).verdict != Adoption)
    decreases |events|
  {
    hide Next, Apply, Sane, Names;
    if events != [] {
      var before := events[..|events| - 1];
      LeftoverBlocksForever(h, before, i, es, release, faults);
      NextSane(History(h, before), events[|events| - 1]);
      NextKeepsLeftover(History(h, before), events[|events| - 1], i);
    }
    ApplyKeepsLeftover(Machine(History(h, events), faults), es, release, i);
  }
}
