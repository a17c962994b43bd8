/** Whole runs of the adoption: an operator issuing commands in any order, any step of which may
    fail or crash, on a host that may reboot at any time. */
module AdoptionRuns {
  import opened AdoptionModel
  import opened AdoptionSafety

  /** The adoption of this receipt has begun and has not been rolled back. */
  predicate Open(h: Host, r: nat) {
    r < |h.receipts| && h.receipts[r].phase != RolledBack
  }

  /** The receipts of `h` are those before, and at most the one of the new adoption. */
  ghost predicate Started(before: seq<Receipt>, after: seq<Receipt>, es: seq<Entry>, release: nat) {
    after == before ||
    (|after| == |before| + 1 && after[..|before|] == before &&
     after[|before|].entries == es && after[|before|].release == release)
  }

  lemma BeginOutcomes(m: System, es: seq<Entry>, release: nat)
    ensures var s := Begin(m, es, release); var h := s.m.state;
      && h == m.state.(receipts := h.receipts)
      && (h == m.state || h.receipts == m.state.receipts + [Receipt(Preparing, es, false, true, release)])
      && (s.outcome == Done ==> h != m.state)
  {
    var h := Begin(m, es, release).m.state;
    assert |m.state.receipts + [Receipt(Preparing, es, false, true, release)]| != |m.state.receipts|;
  }

  lemma BegunSane(h: Host, g: Host, es: seq<Entry>)
    requires Sane(h) && Ready(h, es) && g == h.(receipts := g.receipts)
    requires |g.receipts| == |h.receipts| + 1 && g.receipts[..|h.receipts|] == h.receipts
    requires g.receipts[|h.receipts|].entries == es
    ensures Sane(g) && Ready(g, es)
  {
    hide Size, DistinctSlots;
    ReadyFits(h, es);
    assert forall r :: 0 <= r < |h.receipts| ==> g.receipts[r] == g.receipts[..|h.receipts|][r];
    assert forall i :: 0 <= i < |es| ==> EntryReady(h, h.legacy[i], es[i]) == EntryReady(g, g.legacy[i], es[i]);
  }

  /** Outcomes of `apply`, whatever earlier receipts there are: the adoption is complete, the
      states before it are back, or its own receipt is open for a later rollback; a refusal
      leaves the services and the CLI as they were. Exclusivity is never lost. */
  lemma ApplyOutcomes(m: System, es: seq<Entry>, release: nat)
    requires Sane(m.state)
    ensures var a := Apply(m, es, release); var h := a.m.state; var r := |m.state.receipts|;
      && Sane(h) && |h.legacy| == |m.state.legacy| && |h.native| == |m.state.native|
      && Started(m.state.receipts, h.receipts, es, release)
      && (Exclusive(m.state) ==> Exclusive(h))
      && SameOutside(m.state.native, h.native, es)
      && (a.verdict == Refused ==> h == m.state.(receipts := h.receipts))
      && (a.verdict == Adoption ==>
            && |h.receipts| == r + 1 && h.receipts[r].phase == Committed
            && h.cli == Adopted(release) && AllRegistered(h.native, es) && AllOff(h.legacy))
      && (a.verdict == Restored ==> |h.receipts| == r + 1 && h.receipts[r].phase == RolledBack)
      && (h.receipts == m.state.receipts ==> h == m.state)
      && (h.receipts != m.state.receipts ==>
            && Ready(m.state, es) && Within(h.legacy, es) && OthersOff(h.legacy, es)
            && (h.receipts[r].phase == RolledBack ==>
                  h.cli == Original && !AnyNamed(h.native, es) && h.legacy == m.state.legacy))
  {
    hide Transact, RollbackInner, Begin, Ready, Fits, AllAccounted;
    if Ready(m.state, es) {
      BeginOutcomes(m, es, release);
      var s := Begin(m, es, release);
      ReadyFits(m.state, es);
      if s.m.state != m.state {
        BegunSane(m.state, s.m.state, es);
      }
      if s.outcome == Done {
        var r := |m.state.receipts|;
        TransactSane(s.m, r, es);
        var t := Transact(s.m, r, es);
        StoppedApply(m.state, t.m.state, es);
        if t.outcome == Failed {
          RollbackInnerSane(t.m, r);
          FailedApply(m.state, t.m.state, RollbackInner(t.m, r).m.state, r, es);
        }
      }
    }
  }

  /** Some registration that the plan names exists. */
  ghost predicate AnyNamed(native: seq<Native>, es: seq<Entry>) {
    exists i :: 0 <= i < |es| && Registered(native, es[i])
  }

  lemma StoppedApply(h: Host, t: Host, es: seq<Entry>)
    requires |h.legacy| == |t.legacy| == |es| && Within(t.legacy, es) && OthersOff(t.legacy, es)
    requires forall j :: 0 <= j < |es| && es[j].Covered? ==> h.legacy[j] == es[j].state
    requires t.native != h.native ==> AllOff(t.legacy)
    ensures Exclusive(h) ==> Exclusive(t)
  {
    if AllOff(h.legacy) {
      assert AllOff(t.legacy);
    }
  }

  lemma FailedApply(h: Host, t: Host, g: Host, r: nat, es: seq<Entry>)
    requires |h.legacy| == |t.legacy| && |es| == |h.legacy| && r < |t.receipts| && t.receipts[r].entries == es
    requires RolledFrom(t, g, r) && Within(t.legacy, es) && OthersOff(t.legacy, es) && OthersOff(h.legacy, es)
    requires forall j :: 0 <= j < |es| && es[j].Covered? ==> !Registered(h.native, es[j]) && h.legacy[j] == es[j].state
    requires SameOutside(h.native, t.native, es) && (t.native != h.native ==> AllOff(t.legacy))
    ensures Within(g.legacy, es) && OthersOff(g.legacy, es) && SameOutside(h.native, g.native, es)
    ensures Exclusive(h) ==> Exclusive(g)
    ensures g.receipts[r].phase == RolledBack ==> !AnyNamed(g.native, es) && g.legacy == h.legacy
  {
    if Exclusive(h) && !NoneRegistered(h.native) {
      assert AllOff(g.legacy);
    } else if Exclusive(h) && g.legacy != t.legacy {
      forall j | 0 <= j < |g.native| ensures !g.native[j].manifest {
        if !Names(es, j) {
          assert !h.native[j].manifest;
        }
      }
    } else if Exclusive(h) && t.native == h.native {
      assert NoneRegistered(g.native);
    }
    if g.receipts[r].phase == RolledBack {
      forall i | 0 <= i < |es| ensures !Registered(g.native, es[i]) {
        assert es[i].Covered? ==> Names(es, es[i].slot);
      }
    }
  }

  /** A rollback of one receipt keeps other receipts and the registrations it does not name,
      and a closed receipt changes nothing. */
  lemma RollbackOutcomes(m: System, r: nat)
    requires Sane(m.state)
    ensures var s := Rollback(m, r); var h := s.m.state;
      && Sane(h) && |h.legacy| == |m.state.legacy| && |h.native| == |m.state.native|
      && (!Open(m.state, r) ==> h == m.state)
      && (Open(m.state, r) ==>
            && RolledFrom(m.state, h, r)
            && (s.outcome == Done ==> h.receipts[r].phase == RolledBack))
  {
    hide RollbackInner;
    if Open(m.state, r) {
      RollbackInnerSane(Touch(m).m, r);
    }
  }

  // -----------------------------------------------------------------------------
  // Exclusivity
  // -----------------------------------------------------------------------------

  /** Every registration that exists is one the plan names. */
  ghost predicate NamesAll(native: seq<Native>, es: seq<Entry>) {
    forall j :: 0 <= j < |native| && native[j].manifest ==> Names(es, j)
  }

  /** The plan has nothing to bring back. */
  ghost predicate RevivesNothing(es: seq<Entry>) {
    forall i :: 0 <= i < |es| && es[i].Covered? ==> es[i].state == OFF
  }

  /** On an exclusive host a completed rollback keeps exclusivity exactly when its receipt names
      every registration there is, or has nothing to bring back; a rollback that stops earlier
      keeps it under the same condition. */
  lemma RollbackExclusive(m: System, r: nat)
    requires Sane(m.state) && Exclusive(m.state) && Open(m.state, r)
    ensures var es := m.state.receipts[r].entries; var s := Rollback(m, r);
      && (NamesAll(m.state.native, es) || RevivesNothing(es) ==> Exclusive(s.m.state))
      && (s.outcome == Done ==>
            (Exclusive(s.m.state) <==> NamesAll(m.state.native, es) || RevivesNothing(es)))
  {
    hide Rollback;
    RollbackOutcomes(m, r);
    var es, h := m.state.receipts[r].entries, Rollback(m, r).m.state;
    if NamesAll(m.state.native, es) {
      if h.legacy != m.state.legacy {
        assert NoneRegistered(h.native);
      }
    } else {
      assert AllOff(m.state.legacy);
      var j :| 0 <= j < |m.state.native| && m.state.native[j].manifest && !Names(es, j);
      assert h.native[j].manifest;
      if RevivesNothing(es) {
        assert AllOff(h.legacy);
      } else if Rollback(m, r).outcome == Done {
        var i :| 0 <= i < |es| && es[i].Covered? && es[i].state != OFF;
        assert h.legacy[i] == es[i].state;
      }
    }
  }

  /** The event brings no legacy unit back beside a registration. */
  ghost predicate Careful(h: Host, e: Event) {
    match e
    case DoRollback(r, _) =>
      Open(h, r) ==> NamesAll(h.native, h.receipts[r].entries) || RevivesNothing(h.receipts[r].entries)
    case DoUnit(_, unit) => NoneRegistered(h.native) || unit == OFF
    case _ => true
  }

  lemma RebootKeeps(h: Host)
    requires Sane(h)
    ensures Sane(Reboot(h)) && (Exclusive(h) ==> Exclusive(Reboot(h)))
    ensures |Reboot(h).legacy| == |h.legacy| && |Reboot(h).native| == |h.native|
  {
    hide Fits;
  }

  lemma EditKeeps(h: Host, r: nat, intact: bool)
    requires Sane(h)
    ensures Sane(SetReceipt(h, r, ReceiptAt(h, r).(intact := intact)))
  {
    hide Fits;
  }

  lemma NextSane(h: Host, e: Event)
    requires Sane(h)
    ensures Sane(Next(h, e)) && |Next(h, e).legacy| == |h.legacy| && |Next(h, e).native| == |h.native|
    ensures Exclusive(h) && Careful(h, e) ==> Exclusive(Next(h, e))
  {
    hide Apply, Rollback, Reboot, Fits, Names, AllAccounted;
    match e
    case DoApply(es, release, faults) => ApplyOutcomes(Machine(h, faults), es, release);
    case DoRollback(r, faults) =>
      RollbackOutcomes(Machine(h, faults), r);
      if Exclusive(h) && Open(h, r) {
        RollbackExclusive(Machine(h, faults), r);
      }
    case DoReboot => RebootKeeps(h);
    case DoEdit(r, intact) => EditKeeps(h, r, intact);
    case DoLink(_) =>
    case DoUnit(_, _) =>
    case DoOutside(_) =>
  }

  /** Every event of the run is careful. */
  ghost predicate AllCareful(h: Host, events: seq<Event>)
    decreases |events|
  {
    events != [] ==>
      AllCareful(h, events[..|events| - 1]) && Careful(History(h, events[..|events| - 1]), events[|events| - 1])
  }

  /** Every run is sane, and a careful one is exclusive throughout. */
  lemma {:induction false} HistorySane(h: Host, events: seq<Event>)
    requires Initial(h)
    ensures var g := History(h, events);
      && Sane(g) && |g.legacy| == |h.legacy| && |g.native| == |h.native|
      && (AllCareful(h, events) ==> Exclusive(g))
    decreases |events|
  {
    hide Next, Careful;
    if events != [] {
      HistorySane(h, events[..|events| - 1]);
      NextSane(History(h, events[..|events| - 1]), events[|events| - 1]);
    }
  }

  /** The two plans name the same registrations. */
  ghost predicate SameNames(a: seq<Entry>, b: seq<Entry>) {
    forall j :: Names(a, j) <==> Names(b, j)
  }

  /** All adoptions of the run name the registrations of `plan`. */
  ghost predicate OnePlan(events: seq<Event>, plan: seq<Entry>) {
    forall k :: 0 <= k < |events| && events[k].DoApply? ==> SameNames(events[k].entries, plan)
  }

  /** Legacy units are switched on by hand only while nothing is registered. */
  ghost predicate Hands(h: Host, events: seq<Event>)
    decreases |events|
  {
    events != [] ==>
      var before, last := events[..|events| - 1], events[|events| - 1];
      Hands(h, before) && (last.DoUnit? ==> NoneRegistered(History(h, before).native) || last.unit == OFF)
  }

  /** Receipts and registrations stay those of the plan. */
  ghost predicate Planned(h: Host, plan: seq<Entry>) {
    && NamesAll(h.native, plan)
    && forall r :: 0 <= r < |h.receipts| ==> SameNames(h.receipts[r].entries, plan)
  }

  lemma NextPlanned(h: Host, e: Event, plan: seq<Entry>)
    requires Sane(h) && Planned(h, plan) && (e.DoApply? ==> SameNames(e.entries, plan))
    ensures Planned(Next(h, e), plan)
  {
    hide Apply, Rollback, Names, Fits, AllAccounted;
    match e
    case DoApply(es, release, faults) =>
      ApplyOutcomes(Machine(h, faults), es, release);
      var g := Apply(Machine(h, faults), es, release).m.state;
      forall r | 0 <= r < |g.receipts| ensures SameNames(g.receipts[r].entries, plan) {
        assert r < |h.receipts| ==> g.receipts[..|h.receipts|][r] == h.receipts[r];
      }
    case DoRollback(r, faults) => RollbackOutcomes(Machine(h, faults), r);
    case DoReboot =>
    case DoEdit(r, intact) =>
    case DoLink(_) =>
    case DoUnit(_, _) =>
    case DoOutside(_) =>
  }

  lemma {:induction false} OnePlanIsCareful(h: Host, events: seq<Event>, plan: seq<Entry>)
    requires Initial(h) && OnePlan(events, plan) && Hands(h, events)
    ensures AllCareful(h, events) && Planned(History(h, events), plan)
    decreases |events|
  {
    hide Next, SameNames, Names;
    if events != [] {
      var before := events[..|events| - 1];
      OnePlanIsCareful(h, before, plan);
      HistorySane(h, before);
      var g := History(h, before);
      NextPlanned(g, events[|events| - 1], plan);
      assert Careful(g, events[|events| - 1]) by { PlannedIsCareful(g, events[|events| - 1], plan); }
    }
  }

  lemma PlannedIsCareful(h: Host, e: Event, plan: seq<Entry>)
    requires Planned(h, plan) && (e.DoUnit? ==> NoneRegistered(h.native) || e.unit == OFF)
    ensures Careful(h, e)
  {
    hide Names;
  }

  /** In every run whose plans name the same registrations, and in which no legacy unit is
      switched on by hand beside a registration: while any native registration exists every
      legacy unit is stopped and disabled. Each state a crash can leave is the end of some run. */
  lemma EveryRunIsExclusive(h: Host, events: seq<Event>, plan: seq<Entry>)
    requires Initial(h) && OnePlan(events, plan) && Hands(h, events)
    ensures var g := History(h, events);
      forall i, j :: 0 <= i < |g.native| && 0 <= j < |g.legacy| && g.native[i].manifest ==> g.legacy[j] == OFF
  {
    hide History;
    OnePlanIsCareful(h, events, plan);
    HistorySane(h, events);
  }
}
