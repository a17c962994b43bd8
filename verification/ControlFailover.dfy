/** Control requests: authorities in turn, paths in turn, and no replay of a mutation that may
    already have been committed.

    The network, the resolver and the clock are arbitrary: every answer is a fresh unknown, so
    each contract holds for all of them. Time only moves forward.
 */
module ControlFailover {
  import opened Wrappers
  import opened PathSelection

  type Authority = string

  /** How one transmission ended. `Ambiguous` is any error other than a failure to connect. */
  datatype Ending = ConnectFailure | Ambiguous | Redirect | ServerError | Rejection(status: nat) | Broken | Oversized | Answered

  /** One transmission: the path it used, when the path was chosen, and when a failed one was
      recorded. `nth` numbers the attempts at one authority. */
  datatype Send = Send(authority: Authority, nth: nat, path: Option<Candidate>, chosen: real, ending: Ending, recorded: real)

  datatype Result = Reply | Unavailable | Rejected(status: nat) | InvalidResponse

  datatype Cached = Cached(path: Candidate, until: real, authority: Authority)

  /** What the resolver and the kernel offer at each attempt; `None` means discovery failed. */
  type Discovery = (Authority, nat) -> Option<seq<Candidate>>

  /** Whether the request may be transmitted again after any failure. */
  datatype Request = Request(get: bool, path: string) {
    predicate Repeatable() {
      get || path in ["machines/client/sync", "access/private/sync"]
    }
  }

  /** A transport error: `send` itself failed. */
  predicate Lost(e: Ending) {
    e.ConnectFailure? || e.Ambiguous?
  }

  /** The server answered, or never received the request. */
  predicate NotCommitted(e: Ending) {
    e.ConnectFailure? || e.Redirect? || e.ServerError?
  }

  ghost predicate Distinct(s: seq<Authority>) {
    forall i, j :: 0 <= i < j < |s| ==> s[i] != s[j]
  }

  /** Transmissions that end a run of attempts at most once, at its end. */
  ghost predicate NoReplay(sends: seq<Send>, upTo: int) {
    forall i :: 0 <= i < upTo && i < |sends| ==> NotCommitted(sends[i].ending)
  }

  predicate SamePair(a: Send, b: Send) {
    a.authority == b.authority && a.path.Some? && b.path.Some? && a.path.value.Key() == b.path.value.Key()
  }

  /** An authority's path is used again only two seconds or more after its recorded failure. */
  ghost predicate Spaced(sends: seq<Send>) {
    forall i, j :: 0 <= i < j < |sends| && SamePair(sends[i], sends[j]) ==>
      sends[i].recorded + 2.0 <= sends[j].chosen
  }

  /** How often an authority was tried. */
  function Tries(sends: seq<Send>, authority: Authority): nat {
    if sends == [] then 0
    else Tries(sends[..|sends| - 1], authority) + (if sends[|sends| - 1].authority == authority then 1 else 0)
  }

  lemma SpacedConcat(a: seq<Send>, b: seq<Send>)
    requires Spaced(a) && Spaced(b)
    requires forall x, y :: x in a && y in b ==> x.authority != y.authority
    ensures Spaced(a + b)
  {
    forall i, j | 0 <= i < |a| <= j < |a + b|
      ensures !SamePair((a + b)[i], (a + b)[j]) {
      assert (a + b)[i] in a && (a + b)[j] in b;
    }
  }

  lemma {:induction false} TriesConcat(a: seq<Send>, b: seq<Send>, authority: Authority)
    ensures Tries(a + b, authority) == Tries(a, authority) + Tries(b, authority)
  {
    if b == [] {
      assert a + b == a;
    } else {
      assert (a + b)[..|a + b| - 1] == a + b[..|b| - 1];
      TriesConcat(a, b[..|b| - 1], authority);
    }
  }

  lemma {:induction false} TriesBound(s: seq<Send>, base: Authority, authority: Authority)
    requires forall x :: x in s ==> x.authority == base
    ensures Tries(s, authority) == if authority == base then |s| else 0
  {
    if s != [] {
      TriesBound(s[..|s| - 1], base, authority);
      assert s[|s| - 1] in s;
    }
  }

  /** Transmissions to the listed authorities only, at most eight to each, spaced if the
      offered paths do not change. */
  ghost predicate Orderly(sends: seq<Send>, bases: seq<Authority>, steady: bool) {
    && (forall x :: x in sends ==> x.authority in bases)
    && (steady ==> Spaced(sends))
    && (forall a :: Tries(sends, a) <= if a in bases then 8 else 0)
  }

  lemma NoneSent(p: Paths, discover: Discovery, base: Authority)
    ensures Paced([], p, discover, base)
  {
  }

  lemma NothingSent(bases: seq<Authority>, steady: bool)
    ensures Orderly([], bases, steady)
  {
  }

  lemma OrderlyWidens(sends: seq<Send>, some: seq<Authority>, bases: seq<Authority>, steady: bool)
    requires Orderly(sends, some, steady) && forall a :: a in some ==> a in bases
    ensures Orderly(sends, bases, steady)
  {
  }

  lemma OrderlyExtends(sends: seq<Send>, bases: seq<Authority>, steady: bool, more: seq<Send>, base: Authority)
    requires Orderly(sends, bases, steady) && base !in bases
    requires |more| <= 8 && (forall x :: x in more ==> x.authority == base) && (steady ==> Spaced(more))
    ensures Orderly(sends + more, bases + [base], steady)
  {
    if steady {
      SpacedConcat(sends, more);
    }
    forall a ensures Tries(sends + more, a) <= if a in bases + [base] then 8 else 0 {
      TriesConcat(sends, more, a);
      TriesBound(more, base, a);
    }
  }

  lemma FirstIsAvailable(p: Paths, offered: seq<Candidate>, now: real)
    requires Order(p, offered, now) != []
    ensures Order(p, offered, now)[0] in Available(p, offered, now)
  {
    hide Order, Available;
    OrderDrawsAvailable(p, offered, now);
    assert Order(p, offered, now)[0] in multiset(Order(p, offered, now));
  }

  /** Every offered path used so far is still backing off, counted from its failure. */
  ghost predicate Remembered(sends: seq<Send>, p: Paths, offered: seq<Candidate>) {
    forall i :: 0 <= i < |sends| && sends[i].path.Some? && Offers(offered, sends[i].path.value.Key()) ==>
      sends[i].path.value.Key() in p.failed && sends[i].recorded + 2.0 <= p.failed[sends[i].path.value.Key()].until
  }

  lemma RememberedAfter(sends: seq<Send>, p: Paths, q: Paths, offered: seq<Candidate>, s: Send)
    requires Remembered(sends, p, offered) && s.path.Some? && Backed(p)
    requires q == p || q == Refresh(p, offered)
    requires forall i :: 0 <= i < |sends| ==> sends[i].recorded <= s.recorded
    ensures Remembered(sends + [s], Failure(q, s.path.value, s.recorded), offered)
  {
    RefreshBacked(p, offered);
    FailureBacked(q, s.path.value, s.recorded);
    DelayRange(Failure(q, s.path.value, s.recorded).failed[s.path.value.Key()].count);
  }

  ghost predicate Steady(discover: Discovery, base: Authority) {
    forall n: nat, m: nat :: discover(base, n) == discover(base, m)
  }

  /** While the offer does not change, attempts are spaced and every failure is remembered. */
  ghost predicate Paced(sends: seq<Send>, p: Paths, discover: Discovery, base: Authority) {
    Steady(discover, base) ==>
      Spaced(sends) && (discover(base, 0).Some? ==> Remembered(sends, p, discover(base, 0).value))
  }

  lemma PacedAfter(sends: seq<Send>, p: Paths, p': Paths, discover: Discovery, base: Authority, s: Send)
    requires Paced(sends, p, discover, base) && Backed(p)
    requires forall i :: 0 <= i < |sends| ==> sends[i].recorded <= s.recorded
    requires s.path.Some? && sends != [] ==>
      discover(base, |sends|).Some? && s.path.value in Available(p, discover(base, |sends|).value, s.chosen)
    ensures Steady(discover, base) ==> Spaced(sends + [s])
    ensures s.path.Some? &&
      (|| p' == Failure(p, s.path.value, s.recorded)
       || (discover(base, |sends|).Some? && p' == Failure(Refresh(p, discover(base, |sends|).value), s.path.value, s.recorded)))
      ==> Paced(sends + [s], p', discover, base)
  {
    hide Available, Refresh, Failure;
    if Steady(discover, base) {
      var offer := discover(base, |sends|);
      assert offer == discover(base, 0);
      if sends != [] && s.path.Some? {
        SpacedAfter(sends, p, offer.value, s);
      }
      if s.path.Some? && offer.Some? {
        RememberedAfter(sends, p, p, offer.value, s);
        RememberedAfter(sends, p, Refresh(p, offer.value), offer.value, s);
      }
    }
  }

  lemma SpacedAfter(sends: seq<Send>, p: Paths, offered: seq<Candidate>, s: Send)
    requires Spaced(sends) && Remembered(sends, p, offered)
    requires s.path.Some? ==> s.path.value in Available(p, offered, s.chosen)
    ensures Spaced(sends + [s])
  {
    if s.path.Some? {
      assert Offers(offered, s.path.value.Key());
    }
  }

  class Control {
    const server: Authority
    const fallbacks: seq<Authority>
    const system: bool
    var preferred: Option<(Authority, real)>
    var underlay: Option<Cached>
    var paths: map<Authority, Paths>
    var clock: real

    constructor (server: Authority, fallbacks: seq<Authority>, system: bool)
      ensures Valid()
    {
      this.server, this.fallbacks, this.system := server, fallbacks, system;
      preferred, underlay, paths, clock := None, None, map[], 0.0;
    }

    predicate Enrolled(a: Authority) {
      a == server || a in fallbacks
    }

    /** The preferred authority is always an enrolled one, and every backoff is a real one. */
    ghost predicate Valid()
      reads this
    {
      && (preferred.Some? ==> Enrolled(preferred.value.0))
      && (forall a :: a in paths ==> Backed(paths[a]))
    }

    /** `Instant::now`. */
    method Now() returns (now: real)
      modifies this`clock
      ensures now == clock && old(clock) <= clock
    {
      var later: real := *;
      if later > clock {
        clock := later;
      }
      now := clock;
    }

    /** Prefers any authority for a minute; whether it is enrolled is up to the caller. */
    method PreferAuthority(base: Authority)
      modifies this`preferred, this`clock
      ensures old(clock) <= clock && preferred == Some((base, clock + 60.0))
      ensures old(Valid()) ==> (Valid() <==> Enrolled(base))
    {
      var now := Now();
      preferred := Some((base, now + 60.0));
    }

    /** The streams that set a preference: each takes the authorities in turn, so that the
        preferred one stays enrolled. */
    method OpenStream() returns (working: Option<Authority>)
      requires Valid()
      modifies this`preferred, this`clock
      ensures Valid()
      ensures working.None? ==> preferred == old(preferred)
      ensures working.Some? ==> Enrolled(working.value) && preferred == Some((working.value, clock + 60.0))
    {
      var bases := Authorities();
      for i := 0 to |bases|
        invariant Valid() && preferred == old(preferred)
      {
        var accepted: bool := *;
        if accepted {
          assert bases[i] in bases;
          PreferAuthority(bases[i]);
          return Some(bases[i]);
        }
      }
      return None;
    }

    /** Each enrolled authority once; an unexpired preference comes first. */
    method Authorities() returns (bases: seq<Authority>)
      requires Valid()
      modifies this`clock
      ensures Valid() && old(clock) <= clock
      ensures Distinct(bases) && forall a :: a in bases <==> Enrolled(a)
      ensures bases != [] && bases[0] == if preferred.Some? && clock < preferred.value.1 then preferred.value.0 else server
    {
      var now := Now();
      var wanted := (if preferred.Some? && now < preferred.value.1 then [preferred.value.0] else []) + [server] + fallbacks;
      bases := [];
      for i := 0 to |wanted|
        invariant Distinct(bases)
        invariant forall a :: a in bases <==> a in wanted[..i]
        invariant if i == 0 then bases == [] else bases != [] && bases[0] == wanted[0]
      {
        if wanted[i] !in bases {
          bases := bases + [wanted[i]];
        }
        assert wanted[..i + 1] == wanted[..i] + [wanted[i]];
      }
      assert wanted[..|wanted|] == wanted;
    }

    function PathsOf(base: Authority): Paths
      reads this
    {
      if base in paths then paths[base] else EMPTY
    }

    /** `http_for`: the cached path while it is fresh and for this authority, otherwise the
        first path `order` returns. Loopback and system mode bind no path. */
    method HttpFor(base: Authority, loopback: bool, offered: Option<seq<Candidate>>)
        returns (ok: bool, path: Option<Candidate>, chosen: real)
      requires Valid()
      modifies this`clock, this`underlay, this`paths
      ensures Valid() && old(clock) <= chosen <= clock
      ensures forall a :: a != base ==> (a in paths <==> a in old(paths)) && (a in paths ==> paths[a] == old(paths)[a])
      ensures !ok ==> path.None?
      ensures path.Some? ==>
        || (old(underlay).Some? && old(underlay).value.authority == base && chosen < old(underlay).value.until
            && path == Some(old(underlay).value.path) && paths == old(paths))
        || (offered.Some? && path.value in Available(old(PathsOf(base)), offered.value, chosen) && PathsOf(base) == Refresh(old(PathsOf(base)), offered.value))
      ensures path.None? ==> paths == old(paths) || (offered.Some? && PathsOf(base) == Refresh(old(PathsOf(base)), offered.value))
    {
      hide Order, Available, Refresh;
      if loopback {
        return true, None, clock;
      }
      chosen := Now();
      if underlay.Some? && underlay.value.authority == base && chosen < underlay.value.until {
        return true, Some(underlay.value.path), chosen;
      }
      if system {
        return true, None, chosen;
      }
      if offered.None? {
        return false, None, chosen;
      }
      chosen := Now();
      var state := PathsOf(base);
      var ordered := Order(state, offered.value, chosen);
      RefreshBacked(state, offered.value);
      paths := paths[base := Refresh(state, offered.value)];
      if ordered == [] {
        return false, None, chosen;
      }
      var candidate := ordered[0];
      FirstIsAvailable(state, offered.value, chosen);
      var built: bool := *;
      if !built {
        return false, None, chosen;
      }
      var now := Now();
      underlay := Some(Cached(candidate, now + 30.0, base));
      return true, Some(candidate), chosen;
    }

    /** `refresh_underlay`: expire the cache and record the failure of the path. */
    method RefreshUnderlay(base: Authority, failed: Option<Candidate>) returns (recorded: real)
      requires Valid()
      modifies this`clock, this`underlay, this`paths
      ensures Valid() && old(clock) <= recorded <= clock
      ensures underlay.Some? ==> underlay.value.until <= clock
      ensures failed.None? ==> paths == old(paths)
      ensures failed.Some? ==> paths == old(paths)[base := Failure(old(PathsOf(base)), failed.value, recorded)]
    {
      if underlay.Some? {
        var expiry := Now();
        underlay := Some(underlay.value.(until := expiry));
      }
      recorded := clock;
      if failed.Some? {
        recorded := Now();
        FailureBacked(PathsOf(base), failed.value, recorded);
        paths := paths[base := Failure(PathsOf(base), failed.value, recorded)];
      }
    }

    /** One attempt: choose a path, transmit, and record a transport failure. */
    method Attempt(base: Authority, nth: nat, loopback: bool, offered: Option<seq<Candidate>>) returns (send: Option<Send>)
      requires Valid()
      modifies this`clock, this`underlay, this`paths
      ensures Valid() && old(clock) <= clock
      ensures send.Some? ==> send.value.authority == base && send.value.nth == nth
      ensures send.Some? ==> old(clock) <= send.value.chosen <= send.value.recorded <= clock
      ensures send.Some? && send.value.path.Some? ==>
        || (old(underlay).Some? && send.value.chosen < old(underlay).value.until)
        || (offered.Some? && send.value.path.value in Available(old(PathsOf(base)), offered.value, send.value.chosen))
      ensures send.Some? && Lost(send.value.ending) ==>
        && (underlay.Some? ==> underlay.value.until <= clock)
        && (send.value.path.Some? ==>
              || PathsOf(base) == Failure(old(PathsOf(base)), send.value.path.value, send.value.recorded)
              || (offered.Some? && PathsOf(base) == Failure(Refresh(old(PathsOf(base)), offered.value), send.value.path.value, send.value.recorded)))
    {
      hide Available, Refresh, Failure;
      var ok, path, chosen := HttpFor(base, loopback, offered);
      if !ok {
        return None;
      }
      var ending: Ending := *;
      var recorded := clock;
      if Lost(ending) {
        recorded := RefreshUnderlay(base, path);
      }
      send := Some(Send(base, nth, path, chosen, ending, recorded));
    }

    /** Up to eight attempts at one authority. A mutation is transmitted again only after an
        attempt that did not commit it; while the offered paths stay the same, a path is used
        again only two seconds after its recorded failure. */
    method TryAuthority(base: Authority, request: Request, deadline: real, loopback: bool, discover: Discovery)
        returns (sends: seq<Send>, result: Option<Result>)
      requires Valid() && Enrolled(base)
      modifies this
      ensures Valid()
      ensures |sends| <= 8 && forall x :: x in sends ==> x.authority == base
      ensures forall i :: 0 <= i < |sends| ==> sends[i].nth == i
      ensures !request.Repeatable() ==> NoReplay(sends, if result.None? then |sends| else |sends| - 1)
      ensures result == Some(Reply) <==> |sends| > 0 && sends[|sends| - 1].ending == Answered
      ensures Steady(discover, base) ==> Spaced(sends)
    {
      hide Available, Refresh, Failure, Spaced, Remembered, Steady;
      sends := [];
      assert Paced(sends, PathsOf(base), discover, base) by { NoneSent(PathsOf(base), discover, base); }
      for nth := 0 to 8
        invariant Valid() && |sends| == nth
        invariant forall x :: x in sends ==> x.authority == base
        invariant forall i :: 0 <= i < |sends| ==>
          sends[i].nth == i && sends[i].recorded <= clock && sends[i].ending != Answered
        invariant !request.Repeatable() ==> NoReplay(sends, |sends|)
        invariant nth > 0 && underlay.Some? ==> underlay.value.until <= clock
        invariant Paced(sends, PathsOf(base), discover, base)
      {
        var now := Now();
        if now >= deadline {
          return sends, Some(Unavailable);
        }
        ghost var before := PathsOf(base);
        assert Backed(before);
        var attempt := Attempt(base, nth, loopback, discover(base, nth));
        if attempt.None? {
          return sends, None;
        }
        var send := attempt.value;
        PacedAfter(sends, before, PathsOf(base), discover, base, send);
        sends := sends + [send];
        if !Lost(send.ending) {
          var verdict := Conclude(base, send.path, send.ending);
          return sends, verdict;
        }
        if !send.ending.ConnectFailure? && !request.Repeatable() {
          return sends, Some(Unavailable);
        }
        if send.path.None? {
          return sends, None;
        }
      }
      return sends, None;
    }

    /** What an answer means: go on to the next authority, or a final result. */
    method Conclude(base: Authority, path: Option<Candidate>, ending: Ending) returns (result: Option<Result>)
      requires Valid() && Enrolled(base) && !Lost(ending)
      modifies this
      ensures Valid()
      ensures result.None? <==> ending.Redirect? || ending.ServerError?
      ensures result == Some(Reply) <==> ending == Answered
      ensures ending == Answered ==> preferred == Some((base, clock + 30.0))
    {
      match ending
      case Redirect => result := None;
      case ServerError => result := None;
      case Rejection(status) => result := Some(Rejected(status));
      case Broken => result := Some(Unavailable);
      case Oversized => result := Some(InvalidResponse);
      case Answered =>
        if path.Some? {
          paths := paths[base := Success(PathsOf(base), path.value)];
        }
        var now := Now();
        preferred := Some((base, now + 30.0));
        result := Some(Reply);
    }

    /** The authorities in turn, until one gives a final result. */
    method TryEach(bases: seq<Authority>, request: Request, deadline: real, loopback: Authority -> bool, discover: Discovery)
        returns (sends: seq<Send>, result: Result)
      requires Valid() && Distinct(bases) && forall a :: a in bases ==> Enrolled(a)
      modifies this
      ensures Valid() && Orderly(sends, bases, forall a :: Steady(discover, a))
      ensures !request.Repeatable() ==> NoReplay(sends, |sends| - 1)
      ensures result == Reply <==> |sends| > 0 && sends[|sends| - 1].ending == Answered
    {
      hide Orderly, Spaced, Tries, Steady;
      ghost var steady := forall a :: Steady(discover, a);
      sends := [];
      assert Orderly([], bases[..0], steady) by { NothingSent(bases[..0], steady); }
      for k := 0 to |bases|
        invariant Valid() && Orderly(sends, bases[..k], steady)
        invariant !request.Repeatable() ==> NoReplay(sends, |sends|)
        invariant |sends| > 0 ==> sends[|sends| - 1].ending != Answered
      {
        assert bases[k] in bases && bases[k] !in bases[..k];
        var more, final := TryAuthority(bases[k], request, deadline, loopback(bases[k]), discover);
        OrderlyExtends(sends, bases[..k], steady, more, bases[k]);
        assert bases[..k + 1] == bases[..k] + [bases[k]];
        sends := sends + more;
        if final.Some? {
          OrderlyWidens(sends, bases[..k + 1], bases, steady);
          return sends, final.value;
        }
      }
      OrderlyWidens(sends, bases[..|bases|], bases, steady);
      return sends, Unavailable;
    }

    /** A whole request: at most eight transmissions to each enrolled authority and none to any
        other; a mutation is never transmitted again after an ambiguous failure; and while the
        offered paths stay the same a path rests for two seconds after each failure. */
    method RequestAccept(request: Request, loopback: Authority -> bool, discover: Discovery)
        returns (sends: seq<Send>, result: Result)
      requires Valid()
      modifies this
      ensures Valid()
      ensures !request.Repeatable() ==> NoReplay(sends, |sends| - 1)
      ensures forall a :: Tries(sends, a) <= if Enrolled(a) then 8 else 0
      ensures result == Reply <==> |sends| > 0 && sends[|sends| - 1].ending == Answered
      ensures (forall a :: Steady(discover, a)) ==> Spaced(sends)
    {
      var now := Now();
      var bases := Authorities();
      sends, result := TryEach(bases, request, now + 45.0, loopback, discover);
    }
  }

  /** Each recorded backoff ends between 2 and 60 seconds after the failure it records. */
  ghost predicate Backed(p: Paths) {
    forall k :: k in p.failed ==>
      1 <= p.failed[k].count <= 6 && p.failed[k].until == p.failed[k].last + Delay(p.failed[k].count)
  }

  lemma RefreshBacked(p: Paths, offered: seq<Candidate>)
    requires Backed(p)
    ensures Backed(Refresh(p, offered))
  {
  }

  lemma FailureBacked(p: Paths, c: Candidate, now: real)
    requires Backed(p)
    ensures Backed(Failure(p, c, now))
  {
  }
}
