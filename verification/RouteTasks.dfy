/** The session and the monitor as the objects that hold their state. */
module RouteTasks {
  import opened Wrappers
  import opened RouteModel
  import Model = RouteModel

  class SessionTask {
    var client: bool
    var candidate: Option<Candidate>
    var version: string
    var count: nat
    var plan: Option<Plan>
    var revision: nat

    constructor ()
      ensures Here() == FRESH
    {
      client, candidate, version, count, plan, revision := false, None, "", 0, None, 0;
    }

    function Here(): Session
      reads this
    {
      Session(client, candidate, version, count, plan, revision)
    }

    /** Rebinds candidate and plan together, or neither. */
    method RefreshSource(source: Source, rerouted: bool)
      modifies this
      ensures Here() == Model.RefreshSource(old(Here()), source, rerouted)
    {
      if plan.Some? && candidate.Some? && client && source.Bound? {
        if candidate.value.source != Some(source.address) && rerouted {
          var bound: seq<Candidate> := [];
          for i := 0 to |plan.value|
            invariant bound == Bind(plan.value, source.address)[..i]
          {
            bound := bound + [WithSource(plan.value[i], source.address)];
          }
          assert bound == Bind(plan.value, source.address);
          candidate, plan := Some(WithSource(candidate.value, source.address)), Some(bound);
          revision := revision + 1;
        }
      }
    }

    method Stop()
      modifies this
      ensures Here() == Model.Stop(old(Here()))
    {
      client, candidate, version, count, plan := false, None, "", 0, None;
      revision := revision + 1;
    }

    method Reroute(update: Update, rerouted: bool) returns (accepted: bool)
      modifies this
      ensures accepted == Accepts(old(Here()), update, rerouted)
      ensures Here() == Model.Reroute(old(Here()), update, rerouted)
    {
      if revision != update.revision || !client || !rerouted {
        return false;
      }
      candidate := Some(update.candidate);
      revision := revision + 1;
      return true;
    }

    method Apply(reply: Reply)
      modifies this
      ensures Here() == Model.Apply(old(Here()), reply)
    {
      if !ValidVersion(reply.version) {
        return;
      }
      if version == reply.version && client {
        RefreshSource(reply.source, reply.started);
        return;
      }
      if reply.plan.None? || reply.plan.value == [] || reply.source.Unavailable? {
        return;
      }
      var parsed := if reply.source.Bound? then Bind(reply.plan.value, reply.source.address) else reply.plan.value;
      var chosen := Selected(Here(), parsed, reply.pick);
      if !reply.cached {
        return;
      }
      count := chosen.services;
      if reply.started {
        client, version, candidate, plan := true, reply.version, Some(chosen), Some(parsed);
        revision := revision + 1;
      }
    }
  }

  /** The probing task's counters. */
  class Prober {
    var failures: nat
    var ticks: nat

    constructor ()
      ensures failures == 0 && ticks == 0
    {
      failures, ticks := 0, 0;
    }

    method Reset()
      modifies this
      ensures failures == 0 && ticks == 0
    {
      failures, ticks := 0, 0;
    }

    /** One probe and what follows from it. */
    method Check(snapshot: Snapshot, healthy: bool, pick: Option<nat>) returns (proposal: Option<Update>)
      modifies this
      ensures forall w: Worker :: w.failures == old(failures) && w.ticks == old(ticks) ==>
        && failures == Count(w, healthy).failures && ticks == Count(w, healthy).ticks
        && proposal == Proposal(Count(w, healthy), snapshot, healthy, pick)
    {
      failures := if healthy then 0 else if failures + 1 < 2 then failures + 1 else 2;
      ticks := (ticks + 1) % 10;
      var recovering := healthy && ticks == 0 && snapshot.current.kind != Origin;
      if failures < 2 && !recovering {
        return None;
      }
      var candidates: Plan := [];
      var i := |snapshot.plan|;
      while i > 0
        invariant 0 <= i <= |snapshot.plan|
        invariant candidates == Keep(snapshot.plan[i..], snapshot, recovering)
      {
        i := i - 1;
        if Eligible(snapshot.plan[i], snapshot, recovering) {
          candidates := [snapshot.plan[i]] + candidates;
        }
      }
      if candidates == [] || pick.None? {
        return None;
      }
      return Some(Update(snapshot.revision, Choose(candidates, pick.value)));
    }
  }

  /** The channels between the two tasks. */
  class Monitor {
    var settings: Option<Snapshot>
    var unseen: bool
    var published: Option<nat>
    var slot: Option<Update>

    constructor ()
      ensures settings.None? && !unseen && published.None? && slot.None?
    {
      settings, unseen, published, slot := None, false, None, None;
    }

    method Set(session: Session)
      modifies this
      ensures forall w: World :: w.session == session && w.settings == old(settings) && w.unseen == old(unseen) && w.set_ == old(published) ==>
        settings == SetSettings(w).settings && unseen == SetSettings(w).unseen && published == SetSettings(w).set_
      ensures slot == old(slot)
    {
      if published != Some(session.revision) {
        settings, unseen, published := RouteSnapshot(session), true, Some(session.revision);
      }
    }

    /** `try_send`: a full slot drops the proposal. */
    method TrySend(update: Update)
      modifies this`slot
      ensures slot == if old(slot).None? then Some(update) else old(slot)
    {
      if slot.None? {
        slot := Some(update);
      }
    }
  }
}
