/** What each step of the adoption does to registrations, legacy units and the CLI. */
module AdoptionSafety {
  import opened AdoptionModel

  /** A native service without a registration is neither running nor enabled, unless a failed
      installation could not confirm that it had stopped and disabled it. */
  predicate Accounted(n: Native) {
    !n.manifest && (n.active || n.enabled) ==> n.lost
  }

  predicate Quiet(n: Native) {
    n.active || n.enabled ==> n.lost
  }

  lemma RemoveFilesQuiet(m: Registration)
    ensures Quiet(m.state) ==> Quiet(RemoveFiles(m).m.state)
  {
  }

  lemma WriteUnitQuiet(m: Registration)
    ensures Quiet(m.state) ==> Quiet(WriteUnit(m).m.state)
    ensures WriteUnit(m).outcome == Done ==> WriteUnit(m).m.state == m.state.(unit := true)
  {
  }

  lemma WriteManifestQuiet(m: Registration, release: nat)
    ensures Quiet(m.state) ==> Quiet(WriteManifest(m, release).m.state)
    ensures WriteManifest(m, release).outcome == Done ==>
      WriteManifest(m, release).m.state == m.state.(manifest := true, release := release)
  {
    hide RemoveFiles;
    RemoveFilesQuiet(PutManifest(m, true, release).m);
  }

  lemma WriteFilesQuiet(m: Registration, release: nat)
    ensures Quiet(m.state) ==> Quiet(WriteFiles(m, release).m.state)
    ensures WriteFiles(m, release).outcome == Done ==>
      WriteFiles(m, release).m.state == m.state.(manifest := true, unit := true, release := release)
  {
    hide WriteUnit, WriteManifest;
    var s := WriteProfile(m);
    WriteUnitQuiet(s.m);
    WriteManifestQuiet(WriteUnit(s.m).m, release);
  }

  lemma DropFilesQuiet(m: Registration)
    ensures Quiet(m.state) ==> Quiet(DropFiles(m).m.state)
    ensures DropFiles(m).outcome != Done
  {
    hide RemoveFiles;
    RemoveFilesQuiet(m);
    RemoveFilesQuiet(Swallow(Touch(RemoveFiles(m).m)).m);
  }

  lemma CleanUpAccounted(m: Registration, attemptedStart: bool)
    requires m.state.manifest
    requires attemptedStart || (m.state.active ==> m.state.lost)
    ensures Accounted(CleanUp(m, attemptedStart).m.state)
    ensures CleanUp(m, attemptedStart).outcome != Done
  {
    hide DropFiles;
    var s := if attemptedStart then Confirm(Run(m, false)) else Skip(m);
    DropFilesQuiet(Confirm(Enable(s.m, false)).m);
  }

  lemma EnlistEnables(m: Registration, want: Unit)
    ensures var n := Enlist(m, want).m.state;
      n == m.state || n == m.state.(enabled := true)
    ensures Enlist(m, want).outcome == Done ==>
      Enlist(m, want).m.state.enabled == (m.state.enabled || want.active || want.enabled)
  {
  }

  lemma LaunchStarts(m: Registration, want: Unit)
    ensures var n := Launch(m, want).m.state;
      n == m.state || n == m.state.(active := true)
    ensures Launch(m, want).outcome == Done ==>
      Launch(m, want).m.state.active == (m.state.active || want.active)
  {
  }

  /** A completed activation has switched the service on as far as the journal recorded it. */
  lemma ActivateAccounted(m: Registration, want: Unit)
    requires m.state.manifest && Quiet(m.state)
    ensures Accounted(Activate(m, want).m.state)
    ensures Activate(m, want).outcome == Done ==>
      Activate(m, want).m.state == m.state.(active := m.state.active || want.active,
                                            enabled := m.state.enabled || want.active || want.enabled)
  {
    hide CleanUp, Enlist, Launch;
    var s := Enlist(m, want);
    EnlistEnables(m, want);
    LaunchStarts(s.m, want);
    CleanUpAccounted(s.m, false);
    CleanUpAccounted(Launch(s.m, want).m, true);
  }

  /** A completed installation starts from no unit file and adds what was recorded to what ran. */
  lemma InstallAccounted(m: Registration, want: Unit, release: nat)
    requires Quiet(m.state)
    ensures Accounted(Install(m, want, release).m.state)
    ensures Install(m, want, release).outcome == Done ==>
      && (m.state.unit ==> m.state.manifest)
      && Install(m, want, release).m.state ==
         m.state.(manifest := true, unit := true, release := release, active := m.state.active || want.active,
                  enabled := m.state.enabled || want.active || want.enabled)
    ensures m.state.unit && !m.state.manifest ==> Install(m, want, release).m.state == m.state
  {
    hide WriteFiles, Activate;
    var s := Touch(m);
    WriteFilesQuiet(s.m, release);
    if s.outcome == Done && WriteFiles(s.m, release).outcome == Done {
      ActivateAccounted(WriteFiles(s.m, release).m, want);
    }
  }

  lemma RestoreModuleKeeps(m: Registration, previous: Module)
    ensures var n := RestoreModule(m, previous).m.state; n == m.state.(module_ := n.module_)
  {
  }

  lemma WriteModuleWrites(m: Registration)
    ensures var n := WriteModule(m).m.state;
      && n == m.state.(module_ := n.module_)
      && (WriteModule(m).outcome == Done ==> n.module_ == Enabled)
  {
    hide RestoreModule;
    var s := PutModule(m, Enabled);
    RestoreModuleKeeps(s.m, m.state.module_);
    RestoreModuleKeeps(Touch(s.m).m, m.state.module_);
  }

  /** Joining an owner changes nothing but its private module. */
  lemma JoinEnables(m: Registration, release: nat)
    ensures var n := Join(m, release).m.state;
      && n == m.state.(module_ := n.module_)
      && (Join(m, release).outcome == Done ==>
            m.state.release == release && m.state.module_ != Other && n.module_ == Enabled)
  {
    hide WriteModule;
    WriteModuleWrites(WriteProfile(Touch(m).m).m);
  }

  lemma HaltStops(m: Registration)
    ensures var n := Halt(m).m.state;
      && n == m.state.(active := n.active, enabled := n.enabled)
      && (Halt(m).outcome == Done ==> !n.active && !n.enabled)
  {
  }

  lemma PurgeRemoves(m: Registration)
    ensures var n := Purge(m).m.state;
      && n == m.state.(unit := n.unit, module_ := n.module_)
      && (Purge(m).outcome == Done ==> !n.unit && n.module_ == NoModule)
  {
  }

  /** The manifest disappears only once everything else is gone. */
  lemma UninstallRemoves(m: Registration)
    requires m.state.manifest
    ensures var s := Uninstall(m);
      && s.m.state.lost == m.state.lost
      && (s.outcome == Done || !s.m.state.manifest ==> s.m.state == ABSENT.(lost := m.state.lost))
  {
    hide Halt, Purge;
    HaltStops(m);
    PurgeRemoves(Halt(m).m);
  }

  // -----------------------------------------------------------------------------
  // The host
  // -----------------------------------------------------------------------------

  ghost predicate NoneRegistered(native: seq<Native>) {
    forall i :: 0 <= i < |native| ==> !native[i].manifest
  }

  /** Every entry of the plan is registered. */
  ghost predicate AllRegistered(native: seq<Native>, es: seq<Entry>) {
    forall i :: 0 <= i < |es| && es[i].Covered? ==> Registered(native, es[i])
  }

  ghost predicate AllAccounted(native: seq<Native>) {
    forall i :: 0 <= i < |native| ==> Accounted(native[i])
  }

  ghost predicate AllOff(legacy: seq<Unit>) {
    forall j :: 0 <= j < |legacy| ==> legacy[j] == OFF
  }

  /** The entries belong to this host and have identities of their own. */
  ghost predicate Fits(es: seq<Entry>, units: nat, slots: nat) {
    |es| == units && DistinctSlots(es) && forall i :: 0 <= i < |es| && es[i].Covered? ==> es[i].slot < slots
  }

  ghost predicate AllFit(receipts: seq<Receipt>, units: nat, slots: nat) {
    forall r :: 0 <= r < |receipts| ==> Fits(receipts[r].entries, units, slots)
  }

  /** What holds of every host in every run. */
  ghost predicate Sane(h: Host) {
    AllAccounted(h.native) && AllFit(h.receipts, |h.legacy|, |h.native|)
  }

  /** While any native registration exists, every legacy unit is stopped and disabled. */
  ghost predicate Exclusive(h: Host) {
    NoneRegistered(h.native) || AllOff(h.legacy)
  }

  /** No covered unit runs or is enabled that the plan does not have so. */
  ghost predicate Within(units: seq<Unit>, es: seq<Entry>) {
    forall i :: 0 <= i < |units| && i < |es| && es[i].Covered? ==>
      (units[i].active ==> es[i].state.active) && (units[i].enabled ==> es[i].state.enabled)
  }

  /** No covered unit is running that the journal did not record as running. */
  ghost predicate ActiveWithin(legacy: seq<Unit>, es: seq<Entry>) {
    forall i :: 0 <= i < |legacy| && i < |es| && es[i].Covered? && legacy[i].active ==> es[i].state.active
  }

  /** Units that the plan leaves out are off. */
  ghost predicate OthersOff(units: seq<Unit>, es: seq<Entry>) {
    forall i :: 0 <= i < |units| && i < |es| && es[i].Skipped? ==> units[i] == OFF
  }

  lemma {:induction false} QuiesceAllStops(m: System, es: seq<Entry>, k: nat)
    requires k <= |es| == |m.state.legacy| && OthersOff(m.state.legacy, es)
    requires forall j :: 0 <= j < k ==> m.state.legacy[j] == OFF
    requires forall j :: k <= j < |es| && es[j].Covered? ==> m.state.legacy[j] == es[j].state
    ensures var h := QuiesceAll(m, es, k).m.state;
      && h == m.state.(legacy := h.legacy) && |h.legacy| == |es|
      && Within(h.legacy, es) && OthersOff(h.legacy, es)
      && (QuiesceAll(m, es, k).outcome == Done ==> AllOff(h.legacy))
    decreases |es| - k
  {
    if k < |es| {
      var s := if es[k].Skipped? then Skip(m) else WithLegacy(m, k, Quiesce(LegacyPart(m, k), es[k].state));
      if s.outcome == Done {
        QuiesceAllStops(s.m, es, k + 1);
      }
    }
  }

  /** What one entry may change: its own registration and its owner's. */
  ghost predicate Elsewhere(before: seq<Native>, after: seq<Native>, e: Entry)
    requires e.Covered?
  {
    && |after| == |before|
    && (forall j :: 0 <= j < |before| && j != e.slot && e.owner != Inside(j) ==> after[j] == before[j])
    && (forall j :: 0 <= j < |before| && j != e.slot ==> after[j].manifest == before[j].manifest)
  }

  /** Installing one entry keeps the account. */
  lemma InstallEntryAccounted(m: System, e: Entry, release: nat)
    requires e.Covered? && e.slot < |m.state.native| && AllAccounted(m.state.native)
    requires Quiet(m.state.native[e.slot])
    ensures var h := InstallEntry(m, e, release).m.state;
      && h == m.state.(native := h.native, outside := h.outside)
      && Elsewhere(m.state.native, h.native, e) && AllAccounted(h.native)
  {
    hide Install, Join;
    JoinEnables(OwnerPart(m, e.owner), release);
    InstallAccounted(NativePart(m, e.slot), e.state, release);
  }

  lemma DisableAccounted(m: System, e: Entry, o: Owner)
    requires e.Covered? && AllAccounted(m.state.native) && (o == Nobody || o == e.owner)
    ensures var h := DisableService(m, e.slot, o).m.state;
      && h == m.state.(native := h.native, outside := h.outside)
      && Elsewhere(m.state.native, h.native, e) && AllAccounted(h.native)
  {
  }

  /** Adoption of one entry changes registrations only. */
  lemma AdoptAccounted(m: System, e: Entry, release: nat)
    requires e.Covered? && e.slot < |m.state.native| && AllAccounted(m.state.native)
    requires Quiet(m.state.native[e.slot])
    ensures var h := Adopt(m, e, release).m.state;
      && h == m.state.(native := h.native, outside := h.outside)
      && Elsewhere(m.state.native, h.native, e) && AllAccounted(h.native)
  {
    hide InstallEntry, DisableService, AllAccounted;
    InstallEntryAccounted(m, e, release);
    DisableAccounted(Touch(InstallEntry(m, e, release).m).m, e, if Paired(m, e) then e.owner else Nobody);
  }

  /** Nothing outside the plan is registered or withdrawn. */
  ghost predicate SameOutside(before: seq<Native>, after: seq<Native>, es: seq<Entry>) {
    && |after| == |before|
    && forall j :: 0 <= j < |before| && !Names(es, j) ==> after[j].manifest == before[j].manifest
  }

  /** The plan names this registration. */
  ghost predicate Names(es: seq<Entry>, slot: nat) {
    exists i :: 0 <= i < |es| && es[i].Covered? && es[i].slot == slot
  }

  lemma {:induction false} AdoptAllAccounted(m: System, es: seq<Entry>, release: nat, k: nat)
    requires k <= |es| && Fits(es, |es|, |m.state.native|) && AllAccounted(m.state.native)
    requires forall j :: k <= j < |es| && es[j].Covered? ==> !m.state.native[es[j].slot].manifest
    ensures var h := AdoptAll(m, es, release, k).m.state;
      && h == m.state.(native := h.native, outside := h.outside)
      && SameOutside(m.state.native, h.native, es) && AllAccounted(h.native)
    decreases |es| - k
  {
    hide Adopt;
    if k < |es| {
      if es[k].Skipped? {
        AdoptAllAccounted(m, es, release, k + 1);
      } else {
        AdoptAccounted(m, es[k], release);
        assert Names(es, es[k].slot);
        if Adopt(m, es[k], release).outcome == Done {
          AdoptAllAccounted(Adopt(m, es[k], release).m, es, release, k + 1);
        }
      }
    }
  }

  lemma {:induction false} BindAllKeeps(m: System, es: seq<Entry>, k: nat)
    requires k <= |es|
    ensures BindAll(m, es, k).m.state == m.state
    ensures BindAll(m, es, k).outcome == Done ==>
      forall j :: k <= j < |es| && es[j].Covered? ==> Registered(m.state.native, es[j])
    decreases |es| - k
  {
    if k < |es| {
      if es[k].Skipped? {
        BindAllKeeps(m, es, k + 1);
      } else if Registered(m.state.native, es[k]) && Touch(m).outcome == Done {
        BindAllKeeps(Touch(m).m, es, k + 1);
      }
    }
  }

  /** Only the receipt's phase changes, and only to `Committed`. */
  predicate SealedFrom(h: Host, h': Host, r: nat) {
    h'.receipts == h.receipts || h'.receipts == SetReceipt(h, r, ReceiptAt(h, r).(phase := Committed)).receipts
  }

  lemma SealKeeps(m: System, r: nat, es: seq<Entry>)
    requires r < |m.state.receipts|
    ensures var h := Seal(m, r, es).m.state;
      && h == m.state.(receipts := h.receipts) && SealedFrom(m.state, h, r)
      && (Seal(m, r, es).outcome == Done ==> h.receipts[r].phase == Committed && AllRegistered(h.native, es))
  {
    hide BindAll;
    BindAllKeeps(m, es, 0);
  }

  /** Publication commits with the adopted link in place. Otherwise the original is back, unless
      the restoring call itself did not take effect; a foreign CLI is never touched. */
  lemma PublishKeeps(m: System, r: nat, es: seq<Entry>)
    requires r < |m.state.receipts|
    ensures var s := Publish(m, r, es); var h := s.m.state;
      && h == m.state.(receipts := h.receipts, cli := h.cli) && SealedFrom(m.state, h, r)
      && (m.state.cli != Original ==> h.cli == m.state.cli && s.outcome != Done)
      && (m.state.cli == Original ==> h.cli != Foreign)
      && (s.outcome == Done ==>
            && h.receipts[r].phase == Committed && h.cli == Adopted(m.state.receipts[r].release)
            && AllRegistered(h.native, es))
      && (s.outcome == Failed && m.state.cli == Original && Touch(m).outcome == Done ==>
            var t := Link(Touch(m).m, r, es);
            h.cli == Original <==> t.m.state.cli == Original || Draw(t.m.tape).lands)
  {
    hide Seal;
    if Touch(m).outcome == Done && m.state.cli == Original {
      SealKeeps(Perform(Touch(m).m, m.state.(cli := Adopted(m.state.receipts[r].release))).m, r, es);
    }
  }

  lemma ReadyFits(h: Host, es: seq<Entry>)
    requires Ready(h, es)
    ensures |es| == |h.legacy| && Fits(es, |h.legacy|, |h.native|) && OthersOff(h.legacy, es)
    ensures forall j :: 0 <= j < |es| && es[j].Covered? ==>
      !h.native[es[j].slot].manifest && h.legacy[j] == es[j].state
  {
    hide Size;
    forall j | 0 <= j < |es|
      ensures es[j].Skipped? ==> h.legacy[j] == OFF
      ensures es[j].Covered? ==> es[j].slot < |h.native| && !h.native[es[j].slot].manifest && h.legacy[j] == es[j].state {
      assert EntryReady(h, h.legacy[j], es[j]);
    }
  }

  /** Everything the guarded part of `apply` can leave behind. */
  lemma TransactSane(m: System, r: nat, es: seq<Entry>)
    requires Ready(m.state, es) && Sane(m.state)
    requires r < |m.state.receipts| && m.state.receipts[r].entries == es
    ensures var s := Transact(m, r, es); var h := s.m.state;
      && Sane(h) && |h.legacy| == |m.state.legacy| && |h.native| == |m.state.native| && SealedFrom(m.state, h, r)
      && Within(h.legacy, es) && OthersOff(h.legacy, es) && SameOutside(m.state.native, h.native, es)
      && (h.native != m.state.native ==> AllOff(h.legacy))
      && (s.outcome == Done ==>
            && h.receipts[r].phase == Committed && h.cli == Adopted(m.state.receipts[r].release)
            && AllRegistered(h.native, es) && AllOff(h.legacy))
  {
    hide QuiesceAll, AdoptAll, Publish, Ready;
    ReadyFits(m.state, es);
    QuiesceAllStops(m, es, 0);
    var s1 := QuiesceAll(m, es, 0);
    var release := m.state.receipts[r].release;
    AdoptAllAccounted(s1.m, es, release, 0);
    var s2 := AdoptAll(s1.m, es, release, 0);
    PublishKeeps(Touch(s2.m).m, r, es);
  }

  // -----------------------------------------------------------------------------
  // rollback
  // -----------------------------------------------------------------------------

  /** Only the phase and the staged link of one receipt differ. */
  predicate SameReceiptsBut(a: seq<Receipt>, b: seq<Receipt>, r: nat)
    requires r < |a|
  {
    r < |b| && b == a[r := a[r].(phase := b[r].phase, staged := b[r].staged)]
  }

  lemma RestoreCliRestores(m: System, r: nat)
    requires r < |m.state.receipts|
    ensures var h := RestoreCli(m, r).m.state;
      && h == m.state.(cli := h.cli, receipts := h.receipts)
      && SameReceiptsBut(m.state.receipts, h.receipts, r) && h.receipts[r].phase == m.state.receipts[r].phase
      && (h.cli == m.state.cli || h.cli == Original)
      && (RestoreCli(m, r).outcome == Done ==> h.cli == Original)
  {
  }

  /** Registrations that the plan names, from entry `k` on. */
  ghost predicate NamesFrom(es: seq<Entry>, k: nat, slot: nat) {
    exists i :: k <= i < |es| && es[i].Covered? && es[i].slot == slot
  }

  lemma {:induction false} UninstallAllRemoves(m: System, es: seq<Entry>, start: seq<Native>, k: nat)
    requires k <= |es| && Fits(es, |es|, |start|) && |start| == |m.state.native| && AllAccounted(m.state.native)
    requires forall j :: k <= j < |es| && es[j].Covered? ==> m.state.native[es[j].slot] == start[es[j].slot]
    ensures var s := UninstallAll(m, es, start, k); var h := s.m.state;
      && h == m.state.(native := h.native) && |h.native| == |start| && AllAccounted(h.native)
      && (forall j :: 0 <= j < |start| && !(start[j].manifest && NamesFrom(es, k, j)) ==> h.native[j] == m.state.native[j])
      && (forall j :: 0 <= j < |start| && h.native[j].manifest ==> m.state.native[j].manifest)
      && (s.outcome == Done ==> forall j :: 0 <= j < |start| && start[j].manifest && NamesFrom(es, k, j) ==>
            h.native[j] == ABSENT.(lost := start[j].lost))
    decreases |es| - k
  {
    hide Uninstall;
    if k < |es| {
      if !Registered(start, es[k]) {
        assert forall j :: 0 <= j < |start| && start[j].manifest && NamesFrom(es, k, j) ==> NamesFrom(es, k + 1, j);
        UninstallAllRemoves(m, es, start, k + 1);
      } else {
        var slot := es[k].slot;
        var s := WithNative(m, slot, Uninstall(NativePart(m, slot)));
        UninstallRemoves(NativePart(m, slot));
        assert NamesFrom(es, k, slot) && !NamesFrom(es, k + 1, slot);
        assert forall j :: NamesFrom(es, k, j) <==> j == slot || NamesFrom(es, k + 1, j);
        if s.outcome == Done {
          UninstallAllRemoves(s.m, es, start, k + 1);
        }
      }
    }
  }

  /** What the journal's states and the current ones make of each covered unit. */
  ghost predicate Revived(before: seq<Unit>, after: seq<Unit>, es: seq<Entry>, k: nat)
    requires |before| == |after| == |es|
  {
    forall j :: k <= j < |es| ==>
      after[j] == if es[j].Skipped? then before[j]
                  else Unit(es[j].state.active || before[j].active, es[j].state.enabled)
  }

  /** Units are switched on only as recorded. */
  ghost predicate Bounded(before: seq<Unit>, after: seq<Unit>, es: seq<Entry>)
    requires |before| == |after| == |es|
  {
    forall j :: 0 <= j < |es| ==>
      if es[j].Skipped? then after[j] == before[j]
      else && (after[j].active ==> before[j].active || es[j].state.active)
           && (after[j].enabled ==> before[j].enabled || es[j].state.enabled)
  }

  lemma ReviveUnit(m: Machine<Unit>, recorded: Unit)
    ensures var s := Revive(m, recorded);
      && (s.m.state.active ==> m.state.active || recorded.active)
      && (s.m.state.enabled ==> m.state.enabled || recorded.enabled)
      && (s.outcome == Done ==>
            s.m.state == Unit(recorded.active || m.state.active, recorded.enabled))
  {
  }

  lemma {:induction false} ReviveAllRevives(m: System, es: seq<Entry>, k: nat)
    requires k <= |es| == |m.state.legacy|
    ensures var h := ReviveAll(m, es, k).m.state;
      && h == m.state.(legacy := h.legacy) && |h.legacy| == |es|
      && (forall j :: 0 <= j < k ==> h.legacy[j] == m.state.legacy[j])
      && Bounded(m.state.legacy, h.legacy, es)
      && (ReviveAll(m, es, k).outcome == Done ==> Revived(m.state.legacy, h.legacy, es, k))
    decreases |es| - k
  {
    hide Revive;
    if k < |es| {
      var s := if es[k].Skipped? then Skip(m) else WithLegacy(m, k, Revive(LegacyPart(m, k), es[k].state));
      if es[k].Covered? {
        ReviveUnit(LegacyPart(m, k), es[k].state);
      }
      if s.outcome == Done {
        ReviveAllRevives(s.m, es, k + 1);
      }
    }
  }

  /** The registrations of the plan are withdrawn, everything else is untouched. */
  ghost predicate Withdrawn(native: seq<Native>, native': seq<Native>, es: seq<Entry>) {
    && |native'| == |native|
    && forall j :: 0 <= j < |native| ==>
         native'[j] == if native[j].manifest && Names(es, j) then ABSENT.(lost := native[j].lost) else native[j]
  }

  /** Services without a registration, or that the plan does not name, are left alone, and
      nothing gets registered. */
  ghost predicate Spared(native: seq<Native>, native': seq<Native>, es: seq<Entry>) {
    && |native'| == |native|
    && (forall j :: 0 <= j < |native| && !(native[j].manifest && Names(es, j)) ==> native'[j] == native[j])
    && (forall j :: 0 <= j < |native| && native'[j].manifest ==> native[j].manifest)
  }

  lemma NamesFromStart(es: seq<Entry>)
    ensures forall j :: NamesFrom(es, 0, j) <==> Names(es, j)
  {
  }

  lemma RetreatSane(m: System, r: nat, es: seq<Entry>)
    requires Sane(m.state) && Fits(es, |m.state.legacy|, |m.state.native|) && r < |m.state.receipts|
    ensures var s := Retreat(m, r, m.state.native, es); var h := s.m.state;
      && Sane(h) && h == m.state.(legacy := h.legacy, native := h.native, cli := h.cli, receipts := h.receipts)
      && |h.legacy| == |es|
      && SameReceiptsBut(m.state.receipts, h.receipts, r) && h.receipts[r].phase == m.state.receipts[r].phase
      && Bounded(m.state.legacy, h.legacy, es) && Spared(m.state.native, h.native, es)
      && (h.legacy != m.state.legacy ==> Withdrawn(m.state.native, h.native, es))
      && (s.outcome == Done ==>
            && h.cli == Original && Withdrawn(m.state.native, h.native, es)
            && Revived(m.state.legacy, h.legacy, es, 0))
  {
    hide RestoreCli, UninstallAll, ReviveAll;
    RestoreCliRestores(m, r);
    NamesFromStart(es);
    var m1 := RestoreCli(m, r).m;
    UninstallAllRemoves(m1, es, m.state.native, 0);
    ReviveAllRevives(UninstallAll(m1, es, m.state.native, 0).m, es, 0);
  }

  /** The state a finished rollback of a receipt reaches from `h`: the original CLI, none of its
      registrations, every covered unit as enabled as recorded and running if it was recorded or
      already running. */
  ghost predicate RestoredFrom(h: Host, h': Host, r: nat) {
    && r < |h.receipts|
    && h'.cli == Original
    && Withdrawn(h.native, h'.native, h.receipts[r].entries)
    && |h.receipts[r].entries| == |h'.legacy| == |h.legacy|
    && Revived(h.legacy, h'.legacy, h.receipts[r].entries, 0)
  }

  lemma ValidateReads(m: System, r: nat)
    ensures Validate(m, r).m.state == m.state
    ensures Validate(m, r).outcome == Done ==> Valid(m.state, r)
  {
    hide Valid;
  }

  /** What a rollback of receipt `r` may change, wherever it stops. */
  ghost predicate RolledFrom(h: Host, h': Host, r: nat) {
    && r < |h.receipts| && SameReceiptsBut(h.receipts, h'.receipts, r)
    && h'.outside == h.outside
    && |h'.legacy| == |h.legacy| == |h.receipts[r].entries|
    && Bounded(h.legacy, h'.legacy, h.receipts[r].entries)
    && Spared(h.native, h'.native, h.receipts[r].entries)
    && (h'.legacy != h.legacy ==> Withdrawn(h.native, h'.native, h.receipts[r].entries))
    && (h'.receipts[r].phase == RolledBack ==> RestoredFrom(h, h', r))
  }

  lemma RollbackInnerSane(m: System, r: nat)
    requires Sane(m.state) && r < |m.state.receipts| && m.state.receipts[r].phase != RolledBack
    ensures var s := RollbackInner(m, r); var h := s.m.state;
      Sane(h) && RolledFrom(m.state, h, r) && (s.outcome == Done ==> h.receipts[r].phase == RolledBack)
  {
    hide Retreat, Validate, AllAccounted, DistinctSlots;
    ValidateReads(m, r);
    RetreatSane(PutPhase(Validate(m, r).m, r, RollingBack).m, r, m.state.receipts[r].entries);
  }

  /** A failed validation changes nothing. */
  lemma InvalidReceiptChangesNothing(m: System, r: nat)
    requires !Valid(m.state, r)
    ensures RollbackInner(m, r).m.state == m.state && RollbackInner(m, r).outcome != Done
  {
    hide Retreat, Valid;
  }
}
