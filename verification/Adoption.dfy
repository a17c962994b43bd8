/** `apply`, `rollback` and `rollback_inner` as the source runs them: step by step, on a host
    whose services, CLI link and journal change under them. */
module Adoption {
  import opened AdoptionModel
  import opened AdoptionSafety
  import opened AdoptionRuns
  import Model = AdoptionModel

  /** The registrations that the entries name are the host's. */
  ghost predicate HasSlots(es: seq<Entry>, slots: nat) {
    forall i :: 0 <= i < |es| && es[i].Covered? ==> es[i].slot < slots
  }

  class Agent {
    var legacy: seq<Unit>
    var native: seq<Native>
    var outside: seq<Native>
    var cli: Cli
    var receipts: seq<Receipt>
    var tape: seq<Fault>

    constructor (host: Host, faults: seq<Fault>)
      ensures Here() == Machine(host, faults)
    {
      legacy, native, outside := host.legacy, host.native, host.outside;
      cli, receipts, tape := host.cli, host.receipts, faults;
    }

    ghost function Here(): System
      reads this
    {
      Machine(Host(legacy, native, outside, cli, receipts), tape)
    }

    // --- Calls that can fail before or after taking effect -----------------------

    method Call() returns (fault: Fault)
      modifies this`tape
      ensures fault == Draw(old(tape)) && tape == Rest(old(tape))
    {
      fault := Draw(tape);
      tape := Rest(tape);
    }

    method Access() returns (r: Outcome)
      modifies this`tape
      ensures Step(r, Here()) == Touch(old(Here()))
    {
      var fault := Call();
      r := fault.outcome;
    }

    method StopAndDisable(i: nat, recorded: Unit) returns (r: Outcome)
      requires i < |legacy|
      modifies this`tape, this`legacy
      ensures Step(r, Here()) == WithLegacy(old(Here()), i, Quiesce(LegacyPart(old(Here()), i), recorded))
    {
      r := Done;
      if recorded.active {
        var fault := Call();
        if fault.lands {
          legacy := legacy[i := legacy[i].(active := false)];
        }
        r := fault.outcome;
      }
      if r.Done? && recorded.enabled {
        var fault := Call();
        if fault.lands {
          legacy := legacy[i := legacy[i].(enabled := false)];
        }
        r := fault.outcome;
      }
      assert old(legacy)[i := legacy[i]] == legacy;
    }

    method EnableAndStart(i: nat, recorded: Unit) returns (r: Outcome)
      requires i < |legacy|
      modifies this`tape, this`legacy
      ensures Step(r, Here()) == WithLegacy(old(Here()), i, Revive(LegacyPart(old(Here()), i), recorded))
    {
      var fault := Call();
      if fault.lands {
        legacy := legacy[i := legacy[i].(enabled := recorded.enabled)];
      }
      r := fault.outcome;
      if r.Done? && recorded.active {
        r := Access();
        if r.Done? {
          fault := Call();
          if fault.lands {
            legacy := legacy[i := legacy[i].(active := true)];
          }
          r := fault.outcome;
        }
      }
      assert old(legacy)[i := legacy[i]] == legacy;
    }

    /** The public registration that an entry belongs to, if it is registered. */
    method FindOwner(e: Entry) returns (owner: Owner)
      requires e.Covered?
      ensures owner == if Paired(Here(), e) then e.owner else Nobody
      ensures owner.Inside? ==> owner.slot < |native| && native[owner.slot].manifest
      ensures owner.Outside? ==> owner.index < |outside| && outside[owner.index].manifest
    {
      match e.owner
      case Nobody =>
        owner := Nobody;
      case Inside(i) =>
        owner := if i < |native| && native[i].manifest then e.owner else Nobody;
      case Outside(i) =>
        owner := if i < |outside| && outside[i].manifest then e.owner else Nobody;
    }

    /** The service module's `install`, with the contract its code has. */
    method Install(e: Entry, release: nat, owner: Owner) returns (r: Outcome)
      requires e.Covered? && e.slot < |native| && owner == (if Paired(Here(), e) then e.owner else Nobody)
      requires owner.Inside? ==> owner.slot < |native|
      requires owner.Outside? ==> owner.index < |outside|
      modifies this`tape, this`native, this`outside
      ensures Step(r, Here()) == InstallEntry(old(Here()), e, release)
    {
      hide Join, Model.Install;
      match owner {
        case Nobody =>
          var s := Model.Install(Machine(native[e.slot], tape), e.state, release);
          native, tape, r := native[e.slot := s.m.state], s.m.tape, s.outcome;
        case Inside(j) =>
          var s := Join(Machine(native[j], tape), release);
          native, tape, r := native[j := s.m.state], s.m.tape, s.outcome;
        case Outside(j) =>
          var s := Join(Machine(outside[j], tape), release);
          outside, tape, r := outside[j := s.m.state], s.m.tape, s.outcome;
      }
    }

    /** The service module's `Uninstall { purge: true }`. */
    method Uninstall(i: nat) returns (r: Outcome)
      requires i < |native|
      modifies this`tape, this`native
      ensures Step(r, Here()) == WithNative(old(Here()), i, Model.Uninstall(NativePart(old(Here()), i)))
    {
      hide Model.Uninstall;
      var s := Model.Uninstall(Machine(native[i], tape));
      native, tape, r := native[i := s.m.state], s.m.tape, s.outcome;
    }

    /** Disables the service that `install` returned. */
    method Disable(i: nat, owner: Owner) returns (r: Outcome)
      requires i < |native|
      requires owner.Inside? ==> owner.slot < |native|
      requires owner.Outside? ==> owner.index < |outside|
      modifies this`tape, this`native, this`outside
      ensures Step(r, Here()) == DisableService(old(Here()), i, owner)
    {
      var fault := Call();
      r := fault.outcome;
      match owner {
        case Nobody =>
          native := native[i := if fault.lands then native[i].(enabled := false) else native[i]];
        case Inside(j) =>
          native := native[j := if fault.lands then native[j].(enabled := false) else native[j]];
        case Outside(j) =>
          outside := outside[j := if fault.lands then outside[j].(enabled := false) else outside[j]];
      }
    }

    method WriteJournal(k: nat, phase: Phase) returns (r: Outcome)
      requires k < |receipts|
      modifies this`tape, this`receipts
      ensures Step(r, Here()) == PutPhase(old(Here()), k, phase)
    {
      var fault := Call();
      if fault.lands {
        receipts := receipts[k := receipts[k].(phase := phase)];
      }
      r := fault.outcome;
    }

    method PublishLink(link: Cli) returns (r: Outcome)
      modifies this`tape, this`cli
      ensures Step(r, Here()) == Perform(old(Here()), old(Here()).state.(cli := link))
    {
      var fault := Call();
      if fault.lands {
        cli := link;
      }
      r := fault.outcome;
    }

    // --- The guarded part of apply ------------------------------------------------

    method AdoptEntry(e: Entry, release: nat) returns (r: Outcome)
      requires e.Covered? && e.slot < |native|
      modifies this`tape, this`native, this`outside
      ensures Step(r, Here()) == Adopt(old(Here()), e, release)
      ensures |native| == old(|native|)
    {
      hide InstallEntry, DisableService;
      var owner := FindOwner(e);
      r := Install(e, release, owner);
      InstallKeepsSizes(old(Here()), e, release);
      if r.Done? && e.state.active {
        r := Access();
        if r.Done? && !e.state.enabled {
          DisableKeepsSizes(Here(), e.slot, owner);
          r := Disable(e.slot, owner);
        }
      }
    }

    method BindEntries(entries: seq<Entry>) returns (r: Outcome)
      requires HasSlots(entries, |native|)
      modifies this`tape
      ensures Step(r, Here()) == BindAll(old(Here()), entries, 0)
    {
      for k := 0 to |entries|
        invariant BindAll(Here(), entries, k) == BindAll(old(Here()), entries, 0)
      {
        if entries[k].Covered? {
          if !native[entries[k].slot].manifest {
            return Failed;
          }
          :- Access();
        }
      }
      return Done;
    }

    method PublishAndCommit(k: nat, entries: seq<Entry>) returns (r: Outcome)
      requires HasSlots(entries, |native|) && k < |receipts|
      modifies this`tape, this`cli, this`receipts
      ensures Step(r, Here()) == Publish(old(Here()), k, entries)
      ensures k < |receipts| && receipts[k].entries == old(receipts)[k].entries
    {
      r := Access();
      if r.IsFailure() {
        return;
      }
      if cli != Original {
        return Failed;
      }
      r := PublishLink(Adopted(receipts[k].release));
      if r.Done? {
        r := BindEntries(entries);
        if r.Done? {
          r := WriteJournal(k, Committed);
        }
      }
      // An uncommitted publication puts the previous CLI back when it drops.
      if r.Failed? && cli != Original {
        r := PublishLink(Original);
        r := if r.Crashed? then r else Failed;
      }
    }

    method Transaction(r: nat, entries: seq<Entry>) returns (outcome: Outcome)
      requires |entries| == |legacy| && HasSlots(entries, |native|) && r < |receipts|
      modifies this
      ensures Step(outcome, Here()) == Transact(old(Here()), r, entries)
      ensures |legacy| == |entries| && |native| == old(|native|)
      ensures r < |receipts| && receipts[r].entries == old(receipts)[r].entries
    {
      hide Publish, Adopt, Quiesce;
      for k := 0 to |entries|
        invariant native == old(native) && |legacy| == |entries| && receipts == old(receipts)
        invariant QuiesceAll(Here(), entries, k) == QuiesceAll(old(Here()), entries, 0)
      {
        if entries[k].Covered? {
          :- StopAndDisable(k, entries[k].state);
        }
      }
      ghost var quiet := Here();
      var release := receipts[r].release;
      for k := 0 to |entries|
        invariant |native| == old(|native|) && |legacy| == |entries| && receipts == old(receipts)
        invariant AdoptAll(Here(), entries, release, k) == AdoptAll(quiet, entries, release, 0)
      {
        if entries[k].Covered? {
          :- AdoptEntry(entries[k], release);
        }
      }
      :- Access();
      outcome := PublishAndCommit(r, entries);
    }

    // --- rollback -------------------------------------------------------------------

    method RestoreLink(k: nat) returns (r: Outcome)
      requires k < |receipts|
      modifies this`tape, this`cli, this`receipts
      ensures Step(r, Here()) == RestoreCli(old(Here()), k)
    {
      match cli
      case Original =>
        r := Access();
      case Foreign =>
        r := Failed;
      case Adopted(release) =>
        if release != receipts[k].release {
          return Failed;
        }
        if receipts[k].staged {
          r := Access();
        } else {
          var link := Call();
          if link.lands {
            receipts := receipts[k := receipts[k].(staged := true)];
          }
          r := link.outcome;
        }
        if r.Done? {
          var rename := Call();
          if rename.lands {
            cli, receipts := Original, receipts[k := receipts[k].(staged := false)];
          }
          r := rename.outcome;
          if r.Done? {
            r := Access();
          }
        }
    }

    method Retire(r: nat, entries: seq<Entry>) returns (outcome: Outcome)
      requires r < |receipts| && |entries| == |legacy| && HasSlots(entries, |native|)
      modifies this
      ensures Step(outcome, Here()) == Retreat(old(Here()), r, old(native), entries)
    {
      hide RestoreCli, Model.Uninstall, Revive;
      var installed := native;
      :- RestoreLink(r);
      ghost var restored := Here();
      RestoreCliRestores(old(Here()), r);
      for k := 0 to |entries|
        invariant |native| == |installed| && |legacy| == |entries|
        invariant UninstallAll(Here(), entries, installed, k) == UninstallAll(restored, entries, installed, 0)
      {
        if entries[k].Covered? && installed[entries[k].slot].manifest {
          :- Uninstall(entries[k].slot);
        }
      }
      ghost var removed := Here();
      for k := 0 to |entries|
        invariant |legacy| == |entries|
        invariant ReviveAll(Here(), entries, k) == ReviveAll(removed, entries, 0)
      {
        if entries[k].Covered? {
          :- EnableAndStart(k, entries[k].state);
        }
      }
      return Done;
    }

    /** The receipt's registrations are checked one by one against its release. */
    method CheckReleases(entries: seq<Entry>, release: nat) returns (ok: bool)
      requires HasSlots(entries, |native|)
      ensures ok <==> forall i :: 0 <= i < |entries| && Registered(native, entries[i]) ==>
        native[entries[i].slot].release == release
    {
      for i := 0 to |entries|
        invariant forall j :: 0 <= j < i && Registered(native, entries[j]) ==>
          native[entries[j].slot].release == release
      {
        if entries[i].Covered? && native[entries[i].slot].manifest && native[entries[i].slot].release != release {
          return false;
        }
      }
      return true;
    }

    method CountEntries(entries: seq<Entry>) returns (n: nat)
      ensures n == Size(entries)
    {
      n := 0;
      for k := 0 to |entries|
        invariant n == Size(entries[..k])
      {
        assert entries[..k + 1][..k] == entries[..k];
        if entries[k].Covered? {
          n := n + 1;
        }
      }
      assert entries[..|entries|] == entries;
    }

    method RollbackReceipt(r: nat) returns (outcome: Outcome)
      requires r < |receipts| && |receipts[r].entries| == |legacy| && HasSlots(receipts[r].entries, |native|)
      modifies this
      ensures Step(outcome, Here()) == RollbackInner(old(Here()), r)
    {
      hide Retreat;
      outcome := Access();
      if outcome.IsFailure() {
        return;
      }
      var receipt := receipts[r];
      var size := CountEntries(receipt.entries);
      var same := CheckReleases(receipt.entries, receipt.release);
      if !receipt.intact || size > ROLLBACK_LIMIT || !same {
        return Failed;
      }
      outcome := WriteJournal(r, RollingBack);
      if outcome.Done? {
        ghost var rolling := Here();
        outcome := Retire(r, receipt.entries);
        if outcome.Done? {
          assert r < |receipts| by { RetreatKeepsReceipts(rolling, r, receipt.entries); }
          outcome := WriteJournal(r, RolledBack);
        }
      }
    }

    /** Proved against `AdoptionModel.Rollback`, whose properties `AdoptionRuns` and
        `AdoptionRecovery` establish. */
    method Rollback(r: nat) returns (outcome: Outcome)
      requires r < |receipts| ==> |receipts[r].entries| == |legacy| && HasSlots(receipts[r].entries, |native|)
      modifies this
      ensures Step(outcome, Here()) == Model.Rollback(old(Here()), r)
    {
      hide RollbackInner;
      outcome := Access();
      if outcome.IsFailure() {
        return;
      }
      if r >= |receipts| {
        return Failed;
      }
      if receipts[r].phase == RolledBack {
        return Done;
      }
      outcome := RollbackReceipt(r);
    }

    /** Copies the backups and writes the journal of a new receipt. */
    method OpenReceipt(entries: seq<Entry>, release: nat) returns (r: Outcome)
      modifies this`tape, this`receipts
      ensures Step(r, Here()) == Begin(old(Here()), entries, release)
    {
      r := Access();
      if r.Done? {
        var fault := Call();
        if fault.lands {
          receipts := receipts + [Receipt(Preparing, entries, false, true, release)];
        }
        r := fault.outcome;
        if r.Done? {
          r := Access();
        }
      }
    }

    /** Proved against `AdoptionModel.Apply`. */
    method Apply(entries: seq<Entry>, release: nat) returns (verdict: Verdict)
      modifies this
      ensures Result(verdict, Here()) == Model.Apply(old(Here()), entries, release)
    {
      hide Transact, RollbackInner, Begin;
      if !Ready(Host(legacy, native, outside, cli, receipts), entries) {
        return Refused;
      }
      var r := |receipts|;
      ReadyFits(Here().state, entries);
      BeginOutcomes(Here(), entries, release);
      var outcome := OpenReceipt(entries, release);
      if outcome.IsFailure() {
        return if outcome.Crashed? then Killed else Refused;
      }
      outcome := Transaction(r, entries);
      if outcome.Failed? {
        outcome := RollbackReceipt(r);
        verdict := match outcome case Done => Restored case Failed => Unrecovered case Crashed => Killed;
      } else {
        verdict := if outcome.Done? then Adoption else Killed;
      }
    }
  }

  lemma InstallKeepsSizes(m: System, e: Entry, release: nat)
    requires e.Covered?
    ensures var h := InstallEntry(m, e, release).m.state;
      |h.native| == |m.state.native| && |h.outside| == |m.state.outside|
  {
    hide Join, Model.Install;
  }

  lemma DisableKeepsSizes(m: System, slot: nat, o: Owner)
    ensures var h := DisableService(m, slot, o).m.state;
      |h.native| == |m.state.native| && |h.outside| == |m.state.outside|
  {
  }

  lemma RetreatKeepsReceipts(m: System, r: nat, es: seq<Entry>)
    requires r < |m.state.receipts|
    ensures |Retreat(m, r, m.state.native, es).m.state.receipts| == |m.state.receipts|
  {
    hide RestoreCli, UninstallAll, ReviveAll;
    RestoreCliRestores(m, r);
    var m1 := RestoreCli(m, r).m;
    UninstallKeepsReceipts(m1, es, m.state.native, 0);
    ReviveKeepsReceipts(UninstallAll(m1, es, m.state.native, 0).m, es, 0);
  }

  lemma {:induction false} UninstallKeepsReceipts(m: System, es: seq<Entry>, start: seq<Native>, k: nat)
    requires k <= |es|
    ensures var h := UninstallAll(m, es, start, k).m.state; h == m.state.(native := h.native)
    decreases |es| - k
  {
    hide Model.Uninstall;
    if k < |es| {
      var s := if Registered(start, es[k])
               then WithNative(m, es[k].slot, Model.Uninstall(NativePart(m, es[k].slot))) else Skip(m);
      if s.outcome == Done {
        UninstallKeepsReceipts(s.m, es, start, k + 1);
      }
    }
  }

  lemma {:induction false} ReviveKeepsReceipts(m: System, es: seq<Entry>, k: nat)
    requires k <= |es|
    ensures var h := ReviveAll(m, es, k).m.state; h == m.state.(legacy := h.legacy)
    decreases |es| - k
  {
    hide Revive;
    if k < |es| {
      var s := if es[k].Skipped? then Skip(m) else WithLegacy(m, k, Revive(LegacyPart(m, k), es[k].state));
      if s.outcome == Done {
        ReviveKeepsReceipts(s.m, es, k + 1);
      }
    }
  }
}
