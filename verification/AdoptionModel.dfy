/** The legacy adoption transaction as a deterministic system driven by a fault tape.

    Every file operation and every service manager call draws one entry from the tape, which
    decides whether the call takes effect and whether it succeeds, fails, or is the last thing
    the process does. Quantifying over tapes therefore quantifies over every pattern of
    failures and over a crash at every point of a run.
 */
module AdoptionModel {

  datatype Outcome = Done | Failed | Crashed {
    predicate IsFailure() { !Done? }

    function PropagateFailure(): Outcome
      requires IsFailure()
    {
      this
    }
  }

  /** What one primitive call does: a failed call may or may not have taken effect. */
  datatype Fault = Fault(lands: bool, outcome: Outcome)

  /** A state of the host, or of a part of it, with the faults still to come. */
  datatype Machine<T> = Machine(state: T, tape: seq<Fault>)

  /** Result of a fallible operation; `:-` propagates errors and crashes. */
  datatype Step<T> = Step(outcome: Outcome, m: Machine<T>) {
    predicate IsFailure() { outcome != Done }

    function PropagateFailure(): Step<T>
      requires IsFailure()
    {
      this
    }

    function Extract(): Machine<T>
      requires !IsFailure()
    {
      m
    }
  }

  /** A successful call always takes effect; an exhausted tape injects no more faults. */
  function Draw(tape: seq<Fault>): Fault {
    if tape == [] || tape[0].outcome == Done then Fault(true, Done) else tape[0]
  }

  function Rest(tape: seq<Fault>): seq<Fault> {
    if tape == [] then [] else tape[1..]
  }

  /** One primitive step whose effect would be `after`. */
  function Perform<T>(m: Machine<T>, after: T): Step<T> {
    Step(Draw(m.tape).outcome,
         Machine(if Draw(m.tape).lands then after else m.state, Rest(m.tape)))
  }

  /** A step whose effect is not part of the model: a read, a lock, a reload. */
  function Touch<T>(m: Machine<T>): Step<T> {
    Perform(m, m.state)
  }

  function Skip<T>(m: Machine<T>): Step<T> {
    Step(Done, m)
  }

  /** `let _ = ...`: the error is dropped, a crash is not. */
  function Swallow<T>(s: Step<T>): Step<T> {
    if s.outcome == Failed then s.(outcome := Done) else s
  }

  /** Clean-up before returning an error that is already decided. */
  function Undo<T>(s: Step<T>): Step<T> {
    if s.outcome == Crashed then s else s.(outcome := Failed)
  }

  // -----------------------------------------------------------------------------
  // One native registration
  // -----------------------------------------------------------------------------

  /** Run state of a unit. A legacy unit file is never touched, so it stays startable. */
  datatype Unit = Unit(active: bool, enabled: bool)

  const OFF := Unit(false, false)

  /** The private module of a public registration: none, switched off, switched on, or one that
      belongs to another private identity. */
  datatype Module = NoModule | Disabled | Enabled | Other

  /** One native registration. The manifest file is what makes it exist for `installed`.
      `lost` is a history variable: a failed installation could not confirm that it had
      stopped and disabled the service. */
  datatype Native = Native(
    manifest: bool, unit: bool, active: bool, enabled: bool, lost: bool, module_: Module, release: nat)

  const ABSENT := Native(false, false, false, false, false, NoModule, 0)

  type Registration = Machine<Native>

  function Run(m: Registration, on: bool): Step<Native> {
    Perform(m, m.state.(active := on))
  }

  function Enable(m: Registration, on: bool): Step<Native> {
    Perform(m, m.state.(enabled := on))
  }

  function PutUnit(m: Registration, present: bool): Step<Native> {
    Perform(m, m.state.(unit := present))
  }

  function PutManifest(m: Registration, present: bool, release: nat): Step<Native> {
    Perform(m, m.state.(manifest := present, release := release))
  }

  function PutModule(m: Registration, module_: Module): Step<Native> {
    Perform(m, m.state.(module_ := module_))
  }

  function RemoveUnit(m: Registration): Step<Native> {
    var m1 :- PutUnit(m, false);
    Touch(m1)
  }

  /** `Files::rollback` once profile, unit and manifest have been saved. */
  function RemoveFiles(m: Registration): Step<Native> {
    var m1 :- PutManifest(m, false, 0);
    RemoveUnit(m1)
  }

  function WriteProfile(m: Registration): Step<Native> {
    var s := Touch(m);
    if s.outcome == Failed then Undo(Touch(s.m)) else s
  }

  function WriteUnit(m: Registration): Step<Native> {
    var s := PutUnit(m, true);
    if s.outcome == Failed then Undo(RemoveUnit(s.m)) else s
  }

  function WriteManifest(m: Registration, release: nat): Step<Native> {
    var s := PutManifest(m, true, release);
    if s.outcome == Failed then Undo(RemoveFiles(s.m)) else s
  }

  /** Profile, unit and manifest are written in this order; a failed write drops `Files`. */
  function WriteFiles(m: Registration, release: nat): Step<Native> {
    var m1 :- WriteProfile(m);
    var m2 :- WriteUnit(m1);
    WriteManifest(m2, release)
  }

  /** Reload, enable, reset. The staging manager skips `enable` for a disabled unit. */
  function Enlist(m: Registration, want: Unit): Step<Native> {
    var m1 :- Touch(m);
    var m2 :- if want.active || want.enabled then Enable(m1, true) else Skip(m1);
    Touch(m2)
  }

  /** Start and publish the display record. The staging manager never starts. */
  function Launch(m: Registration, want: Unit): Step<Native> {
    var m1 :- if want.active then Run(m, true) else Skip(m);
    Touch(m1)
  }

  /** A clean-up call whose result is dropped: an error leaves the service unconfirmed. */
  function Confirm(s: Step<Native>): Step<Native> {
    if s.outcome == Failed then Step(Done, s.m.(state := s.m.state.(lost := true))) else s
  }

  /** A failed file rollback is repeated when `Files` drops. */
  function DropFiles(m: Registration): Step<Native> {
    var s := RemoveFiles(m);
    if s.outcome == Crashed then s
    else
      var m1 :- Swallow(Touch(s.m));
      if s.outcome == Done then Step(Failed, m1) else Undo(RemoveFiles(m1))
  }

  /** Clean-up of a failed activation. */
  function CleanUp(m: Registration, attemptedStart: bool): Step<Native> {
    var m1 :- if attemptedStart then Confirm(Run(m, false)) else Skip(m);
    var m2 :- Confirm(Enable(m1, false));
    DropFiles(m2)
  }

  function Activate(m: Registration, want: Unit): Step<Native> {
    var s := Enlist(m, want);
    if s.outcome == Failed then CleanUp(s.m, false)
    else
      var m1 :- s;
      var t := Launch(m1, want);
      if t.outcome == Failed then CleanUp(t.m, true) else t
  }

  /** `service::install` of a registration of its own. A unit file without a manifest is not
      owned, and refused. */
  function Install(m: Registration, want: Unit, release: nat): Step<Native> {
    var m0 :- Touch(m);
    if m0.state.unit && !m0.state.manifest then Step(Failed, m0)
    else
      var m1 :- WriteFiles(m0, release);
      Activate(m1, want)
  }

  /** Dropping the files of a private module puts its previous configuration back. */
  function RestoreModule(m: Registration, previous: Module): Step<Native> {
    var m1 :- PutModule(m, previous);
    Touch(m1)
  }

  function WriteModule(m: Registration): Step<Native> {
    var s := PutModule(m, Enabled);
    if s.outcome == Failed then Undo(RestoreModule(s.m, m.state.module_))
    else
      var m1 :- s;
      var t := Touch(m1);
      if t.outcome == Failed then Undo(RestoreModule(t.m, m.state.module_)) else t
  }

  /** `service::install` of a private profile whose public owner is registered: it becomes a
      module of that owner and gets no registration of its own. */
  function Join(m: Registration, release: nat): Step<Native> {
    var m0 :- Touch(m);
    if m0.state.release != release || m0.state.module_ == Other then Step(Failed, m0)
    else
      var m1 :- WriteProfile(m0);
      WriteModule(m1)
  }

  function Halt(m: Registration): Step<Native> {
    var m1 :- Touch(m);
    var m2 :- Run(m1, false);
    Enable(m2, false)
  }

  /** The files that a purge removes, the private module among them. */
  function Purge(m: Registration): Step<Native> {
    var m1 :- PutUnit(m, false);
    var m2 :- Touch(m1);
    PutModule(m2, NoModule)
  }

  /** `Uninstall { purge: true }`: the manifest goes last. */
  function Uninstall(m: Registration): Step<Native> {
    var m1 :- Halt(m);
    var m2 :- Purge(m1);
    PutManifest(m2, false, 0)
  }

  // -----------------------------------------------------------------------------
  // One legacy unit
  // -----------------------------------------------------------------------------

  /** Stop and disable, each only if the journal recorded it. */
  function Quiesce(m: Machine<Unit>, recorded: Unit): Step<Unit> {
    var m1 :- if recorded.active then Perform(m, m.state.(active := false)) else Skip(m);
    if recorded.enabled then Perform(m1, m1.state.(enabled := false)) else Skip(m1)
  }

  /** Enable or disable, and start if it was active; nothing is ever stopped here. */
  function Revive(m: Machine<Unit>, recorded: Unit): Step<Unit> {
    var m1 :- Perform(m, m.state.(enabled := recorded.enabled));
    if !recorded.active then Skip(m1)
    else
      var m2 :- Touch(m1);
      Perform(m2, m2.state.(active := true))
  }

  // -----------------------------------------------------------------------------
  // The host
  // -----------------------------------------------------------------------------

  /** The shared CLI path: the untouched script, a link to an adopted release, or neither. */
  datatype Cli = Original | Adopted(release: nat) | Foreign

  datatype Phase = Preparing | Committed | RollingBack | RolledBack

  /** The public registration that a private entry belongs to: none, one that stands for a
      legacy unit, or another one. */
  datatype Owner = Nobody | Inside(slot: nat) | Outside(index: nat)

  /** What a plan says about one legacy unit: nothing, or the registration that shall stand for
      it, its recorded state and its owner. The registration depends on the server of the plan. */
  datatype Entry = Skipped | Covered(slot: nat, state: Unit, owner: Owner)

  /** How many units a plan covers. */
  function Size(es: seq<Entry>): nat {
    if es == [] then 0 else Size(es[..|es| - 1]) + if es[|es| - 1].Covered? then 1 else 0
  }

  /** One receipt directory. `intact` says that its backups and the legacy units still match
      their checksums; `staged` that it holds a `restore-cli` link. */
  datatype Receipt = Receipt(phase: Phase, entries: seq<Entry>, staged: bool, intact: bool, release: nat)

  const NO_RECEIPT := Receipt(RolledBack, [], false, false, 0)

  /** `native` has the registrations that can stand for a legacy unit, one for each identity, and
      `outside` the public registrations of other machines. Every adoption leaves a receipt. */
  datatype Host = Host(
    legacy: seq<Unit>,
    native: seq<Native>,
    outside: seq<Native>,
    cli: Cli,
    receipts: seq<Receipt>)

  type System = Machine<Host>

  function LegacyPart(m: System, i: nat): Machine<Unit> {
    Machine(if i < |m.state.legacy| then m.state.legacy[i] else OFF, m.tape)
  }

  function WithLegacy(m: System, i: nat, s: Step<Unit>): Step<Host> {
    Step(s.outcome, Machine(
      if i < |m.state.legacy| then m.state.(legacy := m.state.legacy[i := s.m.state]) else m.state,
      s.m.tape))
  }

  function NativePart(m: System, i: nat): Registration {
    Machine(if i < |m.state.native| then m.state.native[i] else ABSENT, m.tape)
  }

  function WithNative(m: System, i: nat, s: Step<Native>): Step<Host> {
    Step(s.outcome, Machine(
      if i < |m.state.native| then m.state.(native := m.state.native[i := s.m.state]) else m.state,
      s.m.tape))
  }

  /** The registration that owns a private entry. */
  function OwnerPart(m: System, o: Owner): Registration {
    match o
    case Nobody => Machine(ABSENT, m.tape)
    case Inside(i) => NativePart(m, i)
    case Outside(i) => Machine(if i < |m.state.outside| then m.state.outside[i] else ABSENT, m.tape)
  }

  function WithOwner(m: System, o: Owner, s: Step<Native>): Step<Host> {
    match o
    case Nobody => Step(s.outcome, Machine(m.state, s.m.tape))
    case Inside(i) => WithNative(m, i, s)
    case Outside(i) =>
      Step(s.outcome, Machine(
        if i < |m.state.outside| then m.state.(outside := m.state.outside[i := s.m.state]) else m.state,
        s.m.tape))
  }

  function ReceiptAt(h: Host, r: nat): Receipt {
    if r < |h.receipts| then h.receipts[r] else NO_RECEIPT
  }

  function SetReceipt(h: Host, r: nat, receipt: Receipt): Host {
    if r < |h.receipts| then h.(receipts := h.receipts[r := receipt]) else h
  }

  function PutPhase(m: System, r: nat, phase: Phase): Step<Host> {
    Perform(m, SetReceipt(m.state, r, ReceiptAt(m.state, r).(phase := phase)))
  }

  // -----------------------------------------------------------------------------
  // apply
  // -----------------------------------------------------------------------------

  const PLAN_LIMIT: nat := 258
  const ROLLBACK_LIMIT: nat := 257

  /** Stop and disable every covered legacy unit, in journal order. */
  function QuiesceAll(m: System, es: seq<Entry>, k: nat): Step<Host>
    requires k <= |es|
    decreases |es| - k
  {
    if k == |es| then Skip(m)
    else
      var m1 :- if es[k].Skipped? then Skip(m) else WithLegacy(m, k, Quiesce(LegacyPart(m, k), es[k].state));
      QuiesceAll(m1, es, k + 1)
  }

  predicate Paired(m: System, e: Entry)
    requires e.Covered?
  {
    OwnerPart(m, e.owner).state.manifest
  }

  /** Install one entry. The service that `install` returns is the owner's when it is paired. */
  function InstallEntry(m: System, e: Entry, release: nat): Step<Host>
    requires e.Covered?
  {
    if Paired(m, e) then WithOwner(m, e.owner, Join(OwnerPart(m, e.owner), release))
    else WithNative(m, e.slot, Install(NativePart(m, e.slot), e.state, release))
  }

  function DisableService(m: System, slot: nat, o: Owner): Step<Host> {
    if o == Nobody then WithNative(m, slot, Enable(NativePart(m, slot), false))
    else WithOwner(m, o, Enable(OwnerPart(m, o), false))
  }

  /** Install one entry, wait for readiness, and disable it again if it was not enabled. */
  function Adopt(m: System, e: Entry, release: nat): Step<Host>
    requires e.Covered?
  {
    var m1 :- InstallEntry(m, e, release);
    if !e.state.active then Skip(m1)
    else
      var m2 :- Touch(m1);
      if e.state.enabled then Skip(m2)
      else DisableService(m2, e.slot, if Paired(m, e) then e.owner else Nobody)
  }

  function AdoptAll(m: System, es: seq<Entry>, release: nat, k: nat): Step<Host>
    requires k <= |es|
    decreases |es| - k
  {
    if k == |es| then Skip(m)
    else
      var m1 :- if es[k].Skipped? then Skip(m) else Adopt(m, es[k], release);
      AdoptAll(m1, es, release, k + 1)
  }

  /** `bind_cli` for every entry; it fails where no registration exists. */
  function BindAll(m: System, es: seq<Entry>, k: nat): Step<Host>
    requires k <= |es|
    decreases |es| - k
  {
    if k == |es| then Skip(m)
    else if es[k].Covered? && !NativePart(m, es[k].slot).state.manifest then Step(Failed, m)
    else
      var m1 :- if es[k].Skipped? then Skip(m) else Touch(m);
      BindAll(m1, es, k + 1)
  }

  /** Bind every registration, then record the commit. */
  function Seal(m: System, r: nat, es: seq<Entry>): Step<Host> {
    var m1 :- BindAll(m, es, 0);
    PutPhase(m1, r, Committed)
  }

  /** Replace the CLI by a link to the release and commit. */
  function Link(m: System, r: nat, es: seq<Entry>): Step<Host> {
    var m1 :- Perform(m, m.state.(cli := Adopted(ReceiptAt(m.state, r).release)));
    Seal(m1, r, es)
  }

  /** `Publication`: only the original script is replaced, and a link that was published but not
      committed is taken back when the publication drops. */
  function Publish(m: System, r: nat, es: seq<Entry>): Step<Host> {
    var m0 :- Touch(m);
    if m0.state.cli != Original then Step(Failed, m0)
    else
      var t := Link(m0, r, es);
      if t.outcome == Failed && t.m.state.cli != Original
      then Undo(Perform(t.m, t.m.state.(cli := Original))) else t
  }

  /** The guarded part of `apply`, after the journal is on disk. */
  function Transact(m: System, r: nat, es: seq<Entry>): Step<Host> {
    var m1 :- QuiesceAll(m, es, 0);
    var m2 :- AdoptAll(m1, es, ReceiptAt(m1.state, r).release, 0);
    var m3 :- Touch(m2);
    Publish(m3, r, es)
  }

  // -----------------------------------------------------------------------------
  // rollback
  // -----------------------------------------------------------------------------

  /** Put the original script back over the adopted link, through a staged hard link. */
  function RestoreCli(m: System, r: nat): Step<Host> {
    match m.state.cli
    case Original => Touch(m)
    case Foreign => Step(Failed, m)
    case Adopted(release) =>
      var receipt := ReceiptAt(m.state, r);
      if release != receipt.release then Step(Failed, m)
      else
        var m1 :- if receipt.staged then Touch(m)
                  else Perform(m, SetReceipt(m.state, r, receipt.(staged := true)));
        var m2 :- Perform(m1, SetReceipt(m1.state, r, receipt.(staged := false)).(cli := Original));
        Touch(m2)
  }

  /** The entry's registration exists. */
  predicate Registered(native: seq<Native>, e: Entry) {
    e.Covered? && e.slot < |native| && native[e.slot].manifest
  }

  /** Uninstall the entries that were registered when the rollback started. */
  function UninstallAll(m: System, es: seq<Entry>, start: seq<Native>, k: nat): Step<Host>
    requires k <= |es|
    decreases |es| - k
  {
    if k == |es| then Skip(m)
    else
      var m1 :- if Registered(start, es[k])
                then WithNative(m, es[k].slot, Uninstall(NativePart(m, es[k].slot))) else Skip(m);
      UninstallAll(m1, es, start, k + 1)
  }

  function ReviveAll(m: System, es: seq<Entry>, k: nat): Step<Host>
    requires k <= |es|
    decreases |es| - k
  {
    if k == |es| then Skip(m)
    else
      var m1 :- if es[k].Skipped? then Skip(m) else WithLegacy(m, k, Revive(LegacyPart(m, k), es[k].state));
      ReviveAll(m1, es, k + 1)
  }

  /** The receipt is intact and small enough, and none of its registrations is of another
      release. */
  predicate Valid(h: Host, r: nat) {
    var receipt := ReceiptAt(h, r);
    && receipt.intact && Size(receipt.entries) <= ROLLBACK_LIMIT
    && forall i :: 0 <= i < |receipt.entries| && Registered(h.native, receipt.entries[i]) ==>
         h.native[receipt.entries[i].slot].release == receipt.release
  }

  /** The checks at the start of `rollback_inner`, before it changes anything. */
  function Validate(m: System, r: nat): Step<Host> {
    var m1 :- Touch(m);
    if Valid(m1.state, r) then Skip(m1) else Step(Failed, m1)
  }

  /** Withdraw the native side, then bring the legacy side back. */
  function Retreat(m: System, r: nat, start: seq<Native>, es: seq<Entry>): Step<Host> {
    var m1 :- RestoreCli(m, r);
    var m2 :- UninstallAll(m1, es, start, 0);
    ReviveAll(m2, es, 0)
  }

  function RollbackInner(m: System, r: nat): Step<Host> {
    var m1 :- Validate(m, r);
    var m2 :- PutPhase(m1, r, RollingBack);
    var m3 :- Retreat(m2, r, m1.state.native, ReceiptAt(m1.state, r).entries);
    PutPhase(m3, r, RolledBack)
  }

  /** `rollback` of one receipt: a finished one is left alone. */
  function Rollback(m: System, r: nat): Step<Host> {
    var m1 :- Touch(m);
    if r >= |m1.state.receipts| then Step(Failed, m1)
    else if m1.state.receipts[r].phase == RolledBack then Skip(m1)
    else RollbackInner(m1, r)
  }

  // -----------------------------------------------------------------------------
  // Whole commands and runs
  // -----------------------------------------------------------------------------

  /** `Refused` comes before the transaction starts; `Restored` and `Unrecovered` report the
      automatic rollback of a failed one. */
  datatype Verdict = Adoption | Refused | Restored | Unrecovered | Killed

  datatype Result = Result(verdict: Verdict, m: System)

  predicate DistinctSlots(es: seq<Entry>) {
    forall i, j :: 0 <= i < j < |es| && es[i].Covered? && es[j].Covered? ==> es[i].slot != es[j].slot
  }

  predicate Private(e: Entry) {
    e.Covered? && e.owner != Nobody
  }

  /** Identities are distinct, and only the last unit is a private one. */
  predicate WellFormedPlan(es: seq<Entry>) {
    && DistinctSlots(es)
    && (forall i :: 0 <= i < |es| - 1 ==> !Private(es[i]))
    && (es != [] && Private(es[|es| - 1]) ==> es[|es| - 1].owner != Inside(es[|es| - 1].slot))
  }

  /** One unit as inspection and `apply` demand it: recorded as it is and not registered under
      the plan's identity, or not there at all. */
  predicate EntryReady(h: Host, u: Unit, e: Entry) {
    if e.Covered? then e.slot < |h.native| && e.state == u && !h.native[e.slot].manifest else u == OFF
  }

  /** What `apply` checks again after inspection. Earlier receipts play no part. */
  predicate Ready(h: Host, es: seq<Entry>) {
    && h.cli == Original
    && 0 < Size(es) <= PLAN_LIMIT && WellFormedPlan(es)
    && |es| == |h.legacy|
    && (forall i :: 0 <= i < |es| ==> EntryReady(h, h.legacy[i], es[i]))
  }

  /** Copy the backups, write the journal, and sync the directory that holds the receipt. */
  function Begin(m: System, es: seq<Entry>, release: nat): Step<Host> {
    var m1 :- Touch(m);
    var m2 :- Perform(m1, m1.state.(receipts := m1.state.receipts + [Receipt(Preparing, es, false, true, release)]));
    Touch(m2)
  }

  /** How `apply` reports the result of its automatic rollback. */
  function Recovered(s: Step<Host>): Result {
    Result(match s.outcome case Done => Restored case Failed => Unrecovered case Crashed => Killed, s.m)
  }

  function Apply(m: System, es: seq<Entry>, release: nat): Result {
    if !Ready(m.state, es) then Result(Refused, m)
    else
      var s := Begin(m, es, release);
      if s.IsFailure() then Result(if s.outcome == Crashed then Killed else Refused, s.m)
      else
        var r := |m.state.receipts|;
        var t := Transact(s.m, r, es);
        match t.outcome
        case Done => Result(Adoption, t.m)
        case Crashed => Result(Killed, t.m)
        case Failed => Recovered(RollbackInner(t.m, r))
  }

  function Booted(native: seq<Native>): (r: seq<Native>)
    ensures |r| == |native|
    ensures forall i :: 0 <= i < |r| ==> r[i] == native[i].(active := native[i].enabled && native[i].unit)
  {
    seq(|native|, i requires 0 <= i < |native| => native[i].(active := native[i].enabled && native[i].unit))
  }

  function BootedUnits(legacy: seq<Unit>): (r: seq<Unit>)
    ensures |r| == |legacy| && forall i :: 0 <= i < |r| ==> r[i] == legacy[i].(active := legacy[i].enabled)
  {
    seq(|legacy|, i requires 0 <= i < |legacy| => legacy[i].(active := legacy[i].enabled))
  }

  /** A reboot stops everything and starts what is enabled and has a unit file. */
  function Reboot(h: Host): Host {
    h.(legacy := BootedUnits(h.legacy), native := Booted(h.native), outside := Booted(h.outside))
  }

  /** Operator commands with their faults, reboots, edits to the files of a receipt and to the
      CLI, legacy units that come, go, start or stop by hand, and whatever happens to the
      registrations of other machines. */
  datatype Event =
    | DoApply(entries: seq<Entry>, release: nat, faults: seq<Fault>)
    | DoRollback(receipt: nat, faults: seq<Fault>)
    | DoReboot
    | DoEdit(receipt: nat, intact: bool)
    | DoLink(cli: Cli)
    | DoUnit(index: nat, unit: Unit)
    | DoOutside(outside: seq<Native>)

  function Next(h: Host, e: Event): Host {
    match e
    case DoApply(es, release, faults) => Apply(Machine(h, faults), es, release).m.state
    case DoRollback(r, faults) => Rollback(Machine(h, faults), r).m.state
    case DoReboot => Reboot(h)
    case DoEdit(r, intact) => SetReceipt(h, r, ReceiptAt(h, r).(intact := intact))
    case DoLink(cli) => h.(cli := cli)
    case DoUnit(i, unit) => if i < |h.legacy| then h.(legacy := h.legacy[i := unit]) else h
    case DoOutside(outside) => h.(outside := outside)
  }

  function History(h: Host, events: seq<Event>): Host
    decreases |events|
  {
    if events == [] then h
    else Next(History(h, events[..|events| - 1]), events[|events| - 1])
  }

  /** A host before any adoption. */
  predicate Initial(h: Host) {
    && (forall i :: 0 <= i < |h.native| ==> h.native[i] == ABSENT)
    && h.receipts == []
  }
}
