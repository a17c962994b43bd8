/** The route monitor and the session it advises, as one interleaved system.

    The session task applies configurations and reroutes; the monitor task probes the current
    route and proposes another one over a one-slot channel. Every event carries what the
    network decided, so that a sequence of events is one interleaving of the two tasks.
 */
module RouteModel {
  import opened Wrappers

  datatype Kind = Primary | Fallback | Origin

  type Address = string

  /** One endpoint with the configuration it implies. */
  datatype Candidate = Candidate(endpoint: string, kind: Kind, transport: string, source: Option<Address>, services: nat)

  type Plan = seq<Candidate>

  datatype Snapshot = Snapshot(revision: nat, plan: Plan, current: Candidate)

  datatype Update = Update(revision: nat, candidate: Candidate)

  // -----------------------------------------------------------------------------
  // The session
  // -----------------------------------------------------------------------------

  datatype Session = Session(client: bool, candidate: Option<Candidate>, version: string, count: nat, plan: Option<Plan>, revision: nat)

  const FRESH := Session(false, None, "", 0, None, 0)

  /** The source address control would use: unavailable, left to the system, or bound. */
  datatype Source = Unavailable | Unbound | Bound(address: Address)

  function WithSource(c: Candidate, address: Address): Candidate {
    c.(source := Some(address))
  }

  /** `bind_source` over every candidate. */
  function Bind(plan: Plan, address: Address): Plan {
    seq(|plan|, i requires 0 <= i < |plan| => WithSource(plan[i], address))
  }

  function RefreshSource(s: Session, source: Source, rerouted: bool): Session {
    if s.plan.None? || s.candidate.None? || !s.client || !source.Bound? then s
    else if s.candidate.value.source == Some(source.address) || !rerouted then s
    else s.(candidate := Some(WithSource(s.candidate.value, source.address)),
            plan := Some(Bind(s.plan.value, source.address)),
            revision := s.revision + 1)
  }

  function Stop(s: Session): Session {
    FRESH.(revision := s.revision + 1)
  }

  predicate ValidVersion(version: string) {
    && 0 < |version| <= 128
    && forall i :: 0 <= i < |version| ==>
         'a' <= version[i] <= 'z' || 'A' <= version[i] <= 'Z' || '0' <= version[i] <= '9' || version[i] in "-_."
  }

  predicate SameRoute(a: Candidate, b: Candidate) {
    a.endpoint == b.endpoint && a.kind == b.kind && a.transport == b.transport && a.source == b.source
  }

  /** The first candidate on the same route as the previous one. */
  function Retained(plan: Plan, previous: Candidate): (r: Option<Candidate>)
    ensures r.Some? ==> r.value in plan && SameRoute(r.value, previous)
    ensures r.None? ==> forall c :: c in plan ==> !SameRoute(c, previous)
  {
    if plan == [] then None
    else if SameRoute(plan[0], previous) then Some(plan[0])
    else Retained(plan[1..], previous)
  }

  /** A configuration reply: the parsed plan, if it parses and names this machine's services,
      the candidate `choose` picks, and whether the cache write and the tunnel client agree. */
  datatype Reply = Reply(version: string, plan: Option<Plan>, source: Source, pick: nat, cached: bool, started: bool)

  /** Some member of the plan. */
  function Choose(plan: Plan, pick: nat): (c: Candidate)
    requires plan != []
    ensures c in plan
  {
    if pick < |plan| then plan[pick] else plan[0]
  }

  function Selected(s: Session, plan: Plan, pick: nat): Candidate
    requires plan != []
  {
    var kept := if s.candidate.Some? && s.count > 0 then Retained(plan, s.candidate.value) else None;
    if kept.Some? then kept.value else Choose(plan, pick)
  }

  /** `apply`. The service count is assigned before the tunnel client can refuse. */
  function Apply(s: Session, r: Reply): Session {
    if !ValidVersion(r.version) then s
    else if s.version == r.version && s.client then RefreshSource(s, r.source, r.started)
    else if r.plan.None? || r.plan.value == [] || r.source.Unavailable? then s
    else
      var plan := if r.source.Bound? then Bind(r.plan.value, r.source.address) else r.plan.value;
      var candidate := Selected(s, plan, r.pick);
      if !r.cached then s
      else if !r.started then s.(count := candidate.services)
      else Session(true, Some(candidate), r.version, candidate.services, Some(plan), s.revision + 1)
  }

  predicate Accepts(s: Session, u: Update, rerouted: bool) {
    s.revision == u.revision && s.client && rerouted
  }

  function Reroute(s: Session, u: Update, rerouted: bool): Session {
    if Accepts(s, u, rerouted)
    then s.(candidate := Some(u.candidate), revision := s.revision + 1)
    else s
  }

  function RouteSnapshot(s: Session): Option<Snapshot> {
    if s.plan.None? || s.count == 0 || |s.plan.value| < 2 || s.candidate.None? then None
    else Some(Snapshot(s.revision, s.plan.value, s.candidate.value))
  }

  // -----------------------------------------------------------------------------
  // The monitor
  // -----------------------------------------------------------------------------

  /** The probing task. `checking` means that it is inside a check of `snapshot`; `probes` is a
      history variable with the probe results since the counters were last reset. */
  datatype Worker = Worker(checking: bool, snapshot: Option<Snapshot>, failures: nat, ticks: nat, probes: seq<bool>)

  /** Both counters move with every probe. */
  function Count(w: Worker, healthy: bool): Worker {
    w.(failures := if healthy then 0 else if w.failures + 1 < 2 then w.failures + 1 else 2,
       ticks := (w.ticks + 1) % 10,
       probes := w.probes + [healthy])
  }

  function Reset(w: Worker): Worker {
    w.(checking := false, failures := 0, ticks := 0, probes := [])
  }

  predicate Recovering(w: Worker, snapshot: Snapshot, healthy: bool) {
    healthy && w.ticks == 0 && snapshot.current.kind != Origin
  }

  predicate Eligible(c: Candidate, snapshot: Snapshot, recovering: bool) {
    c.endpoint != snapshot.current.endpoint && (recovering ==> c.kind == Origin)
  }

  function Keep(plan: Plan, snapshot: Snapshot, recovering: bool): (r: Plan)
    ensures forall c :: c in r <==> c in plan && Eligible(c, snapshot, recovering)
  {
    if plan == [] then []
    else (if Eligible(plan[0], snapshot, recovering) then [plan[0]] else []) + Keep(plan[1..], snapshot, recovering)
  }

  /** What a finished check of `snapshot` proposes, given what `available` would pick. */
  function Proposal(w: Worker, snapshot: Snapshot, healthy: bool, pick: Option<nat>): Option<Update> {
    var recovering := Recovering(w, snapshot, healthy);
    if w.failures < 2 && !recovering then None
    else
      var candidates := Keep(snapshot.plan, snapshot, recovering);
      if candidates == [] || pick.None? then None
      else Some(Update(snapshot.revision, Choose(candidates, pick.value)))
  }

  // -----------------------------------------------------------------------------
  // The interleaved system
  // -----------------------------------------------------------------------------

  /** `settings` and `unseen` are the watch channel, `set` the revision last published on it,
      `slot` the proposal channel. `proposed` records every proposal with its evidence. */
  datatype World = World(
    session: Session,
    settings: Option<Snapshot>,
    unseen: bool,
    set_: Option<nat>,
    worker: Worker,
    slot: Option<Update>,
    proposed: seq<Evidence>)

  datatype Evidence = Evidence(probes: seq<bool>, from: Candidate, to: Candidate)

  const START := World(FRESH, None, false, None, Worker(false, None, 0, 0, []), None, [])

  datatype Event =
    | Configure(reply: Reply)
    | Refresh(source: Source, rerouted: bool)
    | Shutdown
    | Publish
    | Receive(rerouted: bool)
    | Borrow
    | Interrupt
    | Probe(healthy: bool, pick: Option<nat>)

  /** `Monitor::set` publishes only a revision it has not published last. */
  function SetSettings(w: World): World {
    if w.set_ == Some(w.session.revision) then w
    else w.(settings := RouteSnapshot(w.session), unseen := true, set_ := Some(w.session.revision))
  }

  /** The end of one check: counters, proposal, and a send that drops it if the slot is full. */
  function FinishCheck(w: World, healthy: bool, pick: Option<nat>): World {
    if !w.worker.checking || w.worker.snapshot.None? then w
    else
      var snapshot := w.worker.snapshot.value;
      var worker := Count(w.worker, healthy).(checking := false);
      var proposal := Proposal(worker, snapshot, healthy, pick);
      if proposal.None? then w.(worker := worker)
      else w.(worker := worker,
              slot := if w.slot.None? then proposal else w.slot,
              proposed := w.proposed + [Evidence(worker.probes, snapshot.current, proposal.value.candidate)])
  }

  function Next(w: World, e: Event): World {
    match e
    case Configure(reply) => w.(session := Apply(w.session, reply))
    case Refresh(source, rerouted) => w.(session := RefreshSource(w.session, source, rerouted))
    case Shutdown => w.(session := Stop(w.session))
    case Publish => SetSettings(w)
    case Receive(rerouted) =>
      if w.slot.None? then w
      else w.(session := Reroute(w.session, w.slot.value, rerouted), slot := None)
    case Borrow =>
      if w.worker.checking then w
      else w.(unseen := false, worker := w.worker.(snapshot := w.settings, checking := w.settings.Some?))
    case Interrupt =>
      if w.unseen then w.(unseen := false, worker := Reset(w.worker)) else w
    case Probe(healthy, pick) => FinishCheck(w, healthy, pick)
  }

  function History(events: seq<Event>): World {
    if events == [] then START
    else Next(History(events[..|events| - 1]), events[|events| - 1])
  }
}
