/** What holds in every interleaving of the session and the route monitor. */
module RouteRuns {
  import opened Wrappers
  import opened RouteModel

  /** Without a client there is no candidate, no plan and no version; with one, the candidate
      in use belongs to the plan in use. */
  predicate Coherent(s: Session) {
    if s.client
    then s.plan.Some? && s.candidate.Some? && s.candidate.value in s.plan.value && ValidVersion(s.version)
    else s.plan.None? && s.candidate.None? && s.version == ""
  }

  /** A snapshot of the current revision shows the session's plan and candidate. */
  predicate Accurate(s: Session, snapshot: Option<Snapshot>) {
    snapshot.Some? ==>
      && snapshot.value.revision <= s.revision
      && (snapshot.value.revision == s.revision ==>
            s.plan == Some(snapshot.value.plan) && s.candidate == Some(snapshot.value.current))
  }

  /** A proposal for the current revision names another member of the session's plan. */
  predicate Usable(s: Session, slot: Option<Update>) {
    slot.Some? ==>
      && slot.value.revision <= s.revision
      && (slot.value.revision == s.revision ==>
            && s.plan.Some? && slot.value.candidate in s.plan.value
            && s.candidate.Some? && slot.value.candidate.endpoint != s.candidate.value.endpoint)
  }

  /** The last `n` probes since the reset all failed. */
  predicate Failing(probes: seq<bool>, n: nat) {
    n <= |probes| && forall i :: |probes| - n <= i < |probes| ==> !probes[i]
  }

  /** Two consecutive failures, or a healthy probe of a non-origin route at a tenth tick that
      goes back to an origin. */
  predicate Justified(e: Evidence) {
    || Failing(e.probes, 2)
    || (|e.probes| > 0 && e.probes[|e.probes| - 1] && |e.probes| % 10 == 0 && e.from.kind != Origin && e.to.kind == Origin)
  }

  predicate Counted(w: Worker) {
    w.failures <= 2 && w.ticks == |w.probes| % 10 && Failing(w.probes, w.failures)
  }

  ghost predicate Inv(w: World) {
    && Coherent(w.session)
    && Accurate(w.session, w.settings)
    && Accurate(w.session, w.worker.snapshot)
    && Usable(w.session, w.slot)
    && Counted(w.worker)
    && (forall e :: e in w.proposed ==> Justified(e) && e.from.endpoint != e.to.endpoint)
  }

  /** Binding a source maps the candidate and the plan alike. */
  lemma BindKeepsMember(plan: Plan, c: Candidate, address: Address)
    requires c in plan
    ensures WithSource(c, address) in Bind(plan, address)
  {
    var i :| 0 <= i < |plan| && plan[i] == c;
    assert Bind(plan, address)[i] == WithSource(c, address);
  }

  /** A session step keeps the session coherent; whatever changes plan or candidate also
      changes the revision. */
  predicate Advances(s: Session, s': Session) {
    && s'.revision >= s.revision
    && (s'.revision == s.revision ==> s'.plan == s.plan && s'.candidate == s.candidate)
  }

  lemma RefreshCoherent(s: Session, source: Source, rerouted: bool)
    requires Coherent(s)
    ensures Coherent(RefreshSource(s, source, rerouted)) && Advances(s, RefreshSource(s, source, rerouted))
  {
    if s.client && source.Bound? {
      BindKeepsMember(s.plan.value, s.candidate.value, source.address);
    }
  }

  lemma ApplyCoherent(s: Session, r: Reply)
    requires Coherent(s)
    ensures Coherent(Apply(s, r)) && Advances(s, Apply(s, r))
  {
    RefreshCoherent(s, r.source, r.started);
  }

  lemma FinishCheckInv(w: World, healthy: bool, pick: Option<nat>)
    requires Inv(w)
    ensures Inv(FinishCheck(w, healthy, pick))
  {
    if w.worker.checking && w.worker.snapshot.Some? {
      var snapshot := w.worker.snapshot.value;
      var worker := Count(w.worker, healthy).(checking := false);
      assert Failing(worker.probes, worker.failures);
      var proposal := Proposal(worker, snapshot, healthy, pick);
      if proposal.Some? {
        var e := Evidence(worker.probes, snapshot.current, proposal.value.candidate);
        assert proposal.value.candidate in Keep(snapshot.plan, snapshot, Recovering(worker, snapshot, healthy));
        assert Justified(e) && e.from.endpoint != e.to.endpoint;
      }
    }
  }

  lemma NextInv(w: World, e: Event)
    requires Inv(w)
    ensures Inv(Next(w, e))
  {
    match e
    case Configure(reply) => ApplyCoherent(w.session, reply);
    case Refresh(source, rerouted) => RefreshCoherent(w.session, source, rerouted);
    case Probe(healthy, pick) => FinishCheckInv(w, healthy, pick);
    case _ =>
  }

  lemma {:induction false} HistoryInv(events: seq<Event>)
    ensures Inv(History(events))
  {
    if events != [] {
      HistoryInv(events[..|events| - 1]);
      NextInv(History(events[..|events| - 1]), events[|events| - 1]);
    }
  }

  /** In every interleaving, an accepted proposal installs a member of the plan in use whose
      endpoint differs from the one in use, and changes nothing else of the session. */
  lemma AcceptedRerouteStaysInPlan(events: seq<Event>)
    ensures var s := History(events).session; var slot := History(events).slot;
      slot.Some? && Accepts(s, slot.value, true) ==>
        && s.plan.Some? && slot.value.candidate in s.plan.value
        && s.candidate.Some? && slot.value.candidate.endpoint != s.candidate.value.endpoint
        && Next(History(events), Receive(true)).session ==
             s.(candidate := Some(slot.value.candidate), revision := s.revision + 1)
  {
    HistoryInv(events);
  }

  /** In every interleaving, once the plan or the route has been another than when a proposal was
      made, that proposal is refused for good, even when both are back as they were. */
  lemma StaleProposalsAreRefused(events: seq<Event>, middle: seq<Event>, later: seq<Event>, u: Update)
    requires History(events).slot == Some(u)
    requires var s := History(events).session; var s' := History(events + middle).session;
      s'.plan != s.plan || s'.candidate != s.candidate
    ensures !Accepts(History(events + middle + later).session, u, true)
  {
    HistoryInv(events);
    RevisionGrows(events, middle);
    RevisionGrows(events + middle, later);
  }

  lemma {:induction false} RevisionGrows(events: seq<Event>, later: seq<Event>)
    ensures Advances(History(events).session, History(events + later).session)
    decreases |later|
  {
    if later == [] {
      assert events + later == events;
    } else {
      var before := later[..|later| - 1];
      var last := later[|later| - 1];
      RevisionGrows(events, before);
      assert (events + later)[..|events + later| - 1] == events + before;
      HistoryInv(events + before);
      var w := History(events + before);
      match last
      case Configure(reply) => ApplyCoherent(w.session, reply);
      case Refresh(source, rerouted) => RefreshCoherent(w.session, source, rerouted);
      case _ =>
    }
  }

  /** In every interleaving the session is coherent, both counters stay in range, and every
      proposed change is justified by the probes since the last reset. */
  lemma EveryProposalIsJustified(events: seq<Event>)
    ensures var w := History(events);
      && Coherent(w.session) && w.worker.failures <= 2 && w.worker.ticks <= 9
      && forall e :: e in w.proposed ==> Justified(e) && e.from.endpoint != e.to.endpoint
  {
    HistoryInv(events);
  }
}
