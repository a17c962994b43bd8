/** Socket-local path selection: backoff, stickiness and family interleaving. */
module PathSelection {
  import opened Wrappers

  datatype Ip = V4(bits: nat) | V6(bits: nat)

  datatype Candidate = Candidate(source: Ip, interface: string, destination: (Ip, nat), gateway: Option<Ip>, metric: Option<nat>) {
    function Key(): Key { (source, destination) }
  }

  type Key = (Ip, (Ip, nat))

  /** `last` is a history variable: when the path last failed. Times are in seconds. */
  datatype Backoff = Backoff(count: nat, until: real, last: real)

  datatype Paths = Paths(selected: Option<Candidate>, failed: map<Key, Backoff>)

  const EMPTY := Paths(None, map[])

  const LIMIT: nat := 8

  // -----------------------------------------------------------------------------
  // Backoff
  // -----------------------------------------------------------------------------

  function Pow2(n: nat): real {
    if n == 0 then 1.0 else 2.0 * Pow2(n - 1)
  }

  function Delay(count: nat): real {
    if Pow2(count) < 60.0 then Pow2(count) else 60.0
  }

  function Failure(p: Paths, c: Candidate, now: real): Paths {
    var before := if c.Key() in p.failed then p.failed[c.Key()].count else 0;
    var count := if before + 1 < 6 then before + 1 else 6;
    Paths(if p.selected == Some(c) then None else p.selected,
          p.failed[c.Key() := Backoff(count, now + Delay(count), now)])
  }

  function Success(p: Paths, c: Candidate): Paths {
    Paths(Some(c), p.failed - {c.Key()})
  }

  // -----------------------------------------------------------------------------
  // Order
  // -----------------------------------------------------------------------------

  /** The candidates of one address family, in order. */
  function Family(s: seq<Candidate>, v4: bool): (r: seq<Candidate>)
    ensures forall c :: c in r <==> c in s && c.source.V4? == v4
  {
    if s == [] then []
    else (if s[0].source.V4? == v4 then [s[0]] else []) + Family(s[1..], v4)
  }

  /** The candidates that are, or are not, the selected one. */
  function Copies(s: seq<Candidate>, selected: Option<Candidate>, equal: bool): (r: seq<Candidate>)
    ensures forall c :: c in r <==> c in s && (selected == Some(c)) == equal
  {
    if s == [] then []
    else (if (selected == Some(s[0])) == equal then [s[0]] else []) + Copies(s[1..], selected, equal)
  }

  predicate SamePath(a: Candidate, b: Candidate) {
    a.source == b.source && a.destination == b.destination && a.interface == b.interface
  }

  /** The previously selected path as it is offered now. */
  function Find(s: seq<Candidate>, previous: Candidate): (r: Option<Candidate>)
    ensures r.Some? ==> r.value in s && SamePath(r.value, previous)
    ensures r.None? ==> forall c :: c in s ==> !SamePath(c, previous)
  {
    if s == [] then None else if SamePath(s[0], previous) then Some(s[0]) else Find(s[1..], previous)
  }

  predicate Offers(s: seq<Candidate>, key: Key) {
    exists c :: c in s && c.Key() == key
  }

  /** What `order` keeps: failures and a selection of offered paths only. */
  function Refresh(p: Paths, offered: seq<Candidate>): Paths {
    Paths(if p.selected.None? then None else Find(offered, p.selected.value),
          map k | k in p.failed && Offers(offered, k) :: p.failed[k])
  }

  predicate Ready(p: Paths, c: Candidate, now: real) {
    c.Key() in p.failed ==> p.failed[c.Key()].until <= now
  }

  function ReadyOnes(p: Paths, s: seq<Candidate>, now: real): (r: seq<Candidate>)
    ensures forall c :: c in r <==> c in s && Ready(p, c, now)
  {
    if s == [] then []
    else (if Ready(p, s[0], now) then [s[0]] else []) + ReadyOnes(p, s[1..], now)
  }

  function Available(p: Paths, offered: seq<Candidate>, now: real): seq<Candidate> {
    ReadyOnes(Refresh(p, offered), offered, now)
  }

  /** The two lists in turn, then whatever is left. */
  function Interleave(a: seq<Candidate>, b: seq<Candidate>): seq<Candidate>
    decreases |a| + |b|
  {
    if a == [] then b else [a[0]] + Interleave(b, a[1..])
  }

  function Take(s: seq<Candidate>, n: nat): seq<Candidate> {
    if |s| <= n then s else s[..n]
  }

  /** The stable sort that moves copies of the selected path to the front. */
  function SelectedFirst(s: seq<Candidate>, selected: Option<Candidate>): seq<Candidate> {
    Copies(s, selected, true) + Copies(s, selected, false)
  }

  /** The selected path, if it is among them, and the others. */
  function Split(s: seq<Candidate>, selected: Option<Candidate>): (seq<Candidate>, seq<Candidate>) {
    var sorted := SelectedFirst(s, selected);
    if sorted != [] && selected == Some(sorted[0]) then ([sorted[0]], sorted[1..]) else ([], sorted)
  }

  function Arrange(first: seq<Candidate>, rest: seq<Candidate>): seq<Candidate> {
    Take(first + Interleave(Family(rest, true), Family(rest, false)), LIMIT)
  }

  function Order(p: Paths, offered: seq<Candidate>, now: real): seq<Candidate> {
    var (first, rest) := Split(Available(p, offered, now), Refresh(p, offered).selected);
    Arrange(first, rest)
  }

  // -----------------------------------------------------------------------------
  // Properties of one ordering
  // -----------------------------------------------------------------------------

  lemma {:induction false} FamilySplits(s: seq<Candidate>)
    ensures multiset(Family(s, true)) + multiset(Family(s, false)) == multiset(s)
    ensures |Family(s, true)| + |Family(s, false)| == |s|
  {
    if s != [] {
      FamilySplits(s[1..]);
      assert s == [s[0]] + s[1..];
    }
  }

  lemma {:induction false} CopiesSplit(s: seq<Candidate>, selected: Option<Candidate>)
    ensures multiset(Copies(s, selected, true)) + multiset(Copies(s, selected, false)) == multiset(s)
    ensures |Copies(s, selected, true)| + |Copies(s, selected, false)| == |s|
  {
    if s != [] {
      CopiesSplit(s[1..], selected);
      assert s == [s[0]] + s[1..];
    }
  }

  lemma {:induction false} InterleaveMerges(a: seq<Candidate>, b: seq<Candidate>)
    ensures multiset(Interleave(a, b)) == multiset(a) + multiset(b)
    ensures |Interleave(a, b)| == |a| + |b|
    decreases |a| + |b|
  {
    if a != [] {
      InterleaveMerges(b, a[1..]);
      assert a == [a[0]] + a[1..];
    }
  }

  lemma SplitKeepsAll(s: seq<Candidate>, selected: Option<Candidate>)
    ensures var (first, rest) := Split(s, selected);
      && multiset(first + rest) == multiset(s) && |first| + |rest| == |s|
      && first == if selected.Some? && selected.value in s then [selected.value] else []
  {
    hide Copies;
    CopiesSplit(s, selected);
    var equal, others := Copies(s, selected, true), Copies(s, selected, false);
    if equal != [] {
      assert equal[0] in equal;
      assert SelectedFirst(s, selected)[0] == equal[0];
      assert [equal[0]] + SelectedFirst(s, selected)[1..] == equal + others;
    } else {
      assert selected.Some? ==> selected.value !in s;
      assert SelectedFirst(s, selected) == others && (others != [] ==> others[0] in others);
    }
  }

  lemma TakeSubset(s: seq<Candidate>, n: nat)
    ensures multiset(Take(s, n)) <= multiset(s) && |Take(s, n)| == if |s| <= n then |s| else n
  {
    if |s| > n {
      assert s == s[..n] + s[n..];
    }
  }

  /** `order` returns exactly the available paths, or eight of them without repetition beyond
      the offer; the selected path comes first if it is available. */
  lemma OrderDrawsAvailable(p: Paths, offered: seq<Candidate>, now: real)
    ensures var r := Order(p, offered, now); var available := Available(p, offered, now);
      && |r| == (if |available| <= LIMIT then |available| else LIMIT)
      && multiset(r) <= multiset(available)
      && (|available| <= LIMIT ==> multiset(r) == multiset(available))
      && (Refresh(p, offered).selected.Some? && Refresh(p, offered).selected.value in available ==>
            r != [] && r[0] == Refresh(p, offered).selected.value)
  {
    hide Available, Refresh, Split, Arrange;
    var (first, rest) := Split(Available(p, offered, now), Refresh(p, offered).selected);
    SplitKeepsAll(Available(p, offered, now), Refresh(p, offered).selected);
    ArrangeDraws(first, rest);
  }

  lemma ArrangeDraws(first: seq<Candidate>, rest: seq<Candidate>)
    ensures var r := Arrange(first, rest);
      && |r| == (if |first + rest| <= LIMIT then |first + rest| else LIMIT)
      && multiset(r) <= multiset(first + rest)
      && (|first + rest| <= LIMIT ==> multiset(r) == multiset(first + rest))
      && (|first| == 1 ==> r != [] && r[0] == first[0])
  {
    FamilySplits(rest);
    InterleaveMerges(Family(rest, true), Family(rest, false));
    TakeSubset(first + Interleave(Family(rest, true), Family(rest, false)), LIMIT);
  }

  lemma ArrangeTriesBoth(first: seq<Candidate>, rest: seq<Candidate>, a: Candidate, b: Candidate)
    requires |first| <= 1
    requires (a in first || a in rest) && a.source.V4?
    requires (b in first || b in rest) && b.source.V6?
    ensures exists c :: c in Arrange(first, rest) && c.source.V4?
    ensures exists c :: c in Arrange(first, rest) && c.source.V6?
  {
    hide Family;
    var v4, v6 := Family(rest, true), Family(rest, false);
    var all := first + Interleave(v4, v6);
    var r := Take(all, LIMIT);
    assert (a in first || a in v4) && (b in first || b in v6);
    InterleaveStarts(v4, v6);
    assert forall i :: 0 <= i < |r| ==> r[i] == all[i] && r[i] in r;
    if first == [] {
      assert r[0] == v4[0] && r[1] == v6[0];
    } else {
      assert r[0] == first[0];
      assert v4 != [] ==> r[1] == v4[0];
      assert v4 == [] ==> r[1] == v6[0];
      assert v4 != [] && v6 != [] ==> r[2] == v6[0];
    }
  }

  lemma InterleaveStarts(a: seq<Candidate>, b: seq<Candidate>)
    ensures |Interleave(a, b)| == |a| + |b|
    ensures a != [] ==> Interleave(a, b)[0] == a[0]
    ensures a == [] ==> Interleave(a, b) == b
    ensures a != [] && b != [] ==> Interleave(a, b)[1] == b[0]
  {
    InterleaveMerges(a, b);
    if a != [] && b != [] {
      assert Interleave(b, a[1..])[0] == b[0];
    }
  }

  /** Both address families are tried whenever both are available. */
  lemma OrderTriesBothFamilies(p: Paths, offered: seq<Candidate>, now: real, a: Candidate, b: Candidate)
    requires a in Available(p, offered, now) && a.source.V4?
    requires b in Available(p, offered, now) && b.source.V6?
    ensures exists c :: c in Order(p, offered, now) && c.source.V4?
    ensures exists c :: c in Order(p, offered, now) && c.source.V6?
  {
    hide Available, Refresh, Split, Arrange;
    var (first, rest) := Split(Available(p, offered, now), Refresh(p, offered).selected);
    SplitKeepsAll(Available(p, offered, now), Refresh(p, offered).selected);
    assert a in multiset(first + rest) && b in multiset(first + rest);
    ArrangeTriesBoth(first, rest, a, b);
  }

  // -----------------------------------------------------------------------------
  // Every sequence of operations
  // -----------------------------------------------------------------------------

  datatype Op = DoOrder(offered: seq<Candidate>, now: real) | DoFailure(path: Candidate, now: real) | DoSuccess(path: Candidate)

  function Step(p: Paths, op: Op): Paths {
    match op
    case DoOrder(offered, _) => Refresh(p, offered)
    case DoFailure(c, now) => Failure(p, c, now)
    case DoSuccess(c) => Success(p, c)
  }

  function Run(ops: seq<Op>): Paths {
    if ops == [] then EMPTY else Step(Run(ops[..|ops| - 1]), ops[|ops| - 1])
  }

  /** When a path last failed. */
  function LastFailure(ops: seq<Op>, key: Key): Option<real> {
    if ops == [] then None
    else
      var op := ops[|ops| - 1];
      if op.DoFailure? && op.path.Key() == key then Some(op.now) else LastFailure(ops[..|ops| - 1], key)
  }

  /** After any operations, each backoff counts 1 to 6 failures and ends min(2^count, 60)
      seconds after the path's last failure. */
  lemma {:induction false} RunBacksOff(ops: seq<Op>, key: Key)
    requires key in Run(ops).failed
    ensures var b := Run(ops).failed[key];
      1 <= b.count <= 6 && LastFailure(ops, key) == Some(b.last) && b.until == b.last + Delay(b.count)
  {
    var before := Run(ops[..|ops| - 1]);
    var op := ops[|ops| - 1];
    if key in before.failed {
      RunBacksOff(ops[..|ops| - 1], key);
    }
  }

  lemma DelayRange(count: nat)
    requires 1 <= count <= 6
    ensures 2.0 <= Delay(count) <= 60.0
  {
    assert Pow2(1) == 2.0 && Pow2(2) == 4.0 && Pow2(3) == 8.0;
    assert Pow2(4) == 16.0 && Pow2(5) == 32.0 && Pow2(6) == 64.0;
  }

  /** No offered path is excluded later than 60 seconds after its last failure, nor offered
      again within 2 seconds of it, whatever happened before. */
  lemma RunExcludesForAWhile(ops: seq<Op>, offered: seq<Candidate>, c: Candidate, now: real)
    requires c in offered
    ensures c !in Available(Run(ops), offered, now) ==>
      LastFailure(ops, c.Key()).Some? && now < LastFailure(ops, c.Key()).value + 60.0
    ensures c.Key() in Run(ops).failed && c in Available(Run(ops), offered, now) ==>
      LastFailure(ops, c.Key()).Some? && LastFailure(ops, c.Key()).value + 2.0 <= now
  {
    assert Offers(offered, c.Key());
    if c.Key() in Run(ops).failed {
      RunBacksOff(ops, c.Key());
      DelayRange(Run(ops).failed[c.Key()].count);
    }
  }

  /** After `order`, failures and selection refer only to offered paths. */
  lemma OrderForgets(p: Paths, offered: seq<Candidate>)
    ensures var q := Refresh(p, offered);
      && (forall k :: k in q.failed <==> k in p.failed && Offers(offered, k))
      && (forall k :: k in q.failed ==> q.failed[k] == p.failed[k])
      && (q.selected.Some? ==> q.selected.value in offered && p.selected.Some? && SamePath(q.selected.value, p.selected.value))
  {
  }

  // -----------------------------------------------------------------------------
  // The object
  // -----------------------------------------------------------------------------

  lemma TakeMore(s: seq<Candidate>, t: seq<Candidate>)
    requires |s| >= LIMIT
    ensures Take(s + t, LIMIT) == Take(s, LIMIT)
  {
  }

  class Selection {
    var selected: Option<Candidate>
    var failed: map<Key, Backoff>

    constructor ()
      ensures Here() == EMPTY
    {
      selected, failed := None, map[];
    }

    function Here(): Paths
      reads this
    {
      Paths(selected, failed)
    }

    method RecordFailure(c: Candidate, now: real)
      modifies this
      ensures Here() == Failure(old(Here()), c, now)
    {
      var count := (if c.Key() in failed then failed[c.Key()].count else 0) + 1;
      if count > 6 {
        count := 6;
      }
      failed := failed[c.Key() := Backoff(count, now + Delay(count), now)];
      if selected == Some(c) {
        selected := None;
      }
    }

    method RecordSuccess(c: Candidate)
      modifies this
      ensures Here() == Success(old(Here()), c)
    {
      failed := failed - {c.Key()};
      selected := Some(c);
    }

    method MakeOrder(offered: seq<Candidate>, now: real) returns (ordered: seq<Candidate>)
      modifies this
      ensures ordered == Order(old(Here()), offered, now)
      ensures Here() == Refresh(old(Here()), offered)
    {
      failed := map k | k in failed && Offers(offered, k) :: failed[k];
      if selected.Some? {
        selected := Find(offered, selected.value);
      }
      var available := ReadyOnes(Here(), offered, now);
      var (first, rest) := Split(available, selected);
      ordered := Fill(first, Family(rest, true), Family(rest, false));
    }
  }

  /** The interleaving loop: one path of each family per round, up to the limit. */
  method Fill(first: seq<Candidate>, v4: seq<Candidate>, v6: seq<Candidate>) returns (ordered: seq<Candidate>)
    requires |first| <= LIMIT
    ensures ordered == Take(first + Interleave(v4, v6), LIMIT)
  {
    ordered := first;
    var next4, next6 := v4, v6;
    while |ordered| < LIMIT
      invariant Take(ordered + Interleave(next4, next6), LIMIT) == Take(first + Interleave(v4, v6), LIMIT)
      invariant |ordered| <= LIMIT
      decreases LIMIT - |ordered|
    {
      if next4 == [] && next6 == [] {
        break;
      }
      InterleaveStep(next4, next6);
      ghost var all := ordered + Interleave(next4, next6);
      if next4 != [] {
        ordered, next4 := ordered + [next4[0]], next4[1..];
      }
      if next6 != [] {
        if |ordered| < LIMIT {
          ordered := ordered + [next6[0]];
        }
        next6 := next6[1..];
      }
      if |ordered| == LIMIT {
        assert all[..LIMIT] == ordered;
        TakeMore(ordered, Interleave(next4, next6));
      } else {
        assert all == ordered + Interleave(next4, next6);
      }
    }
    if |ordered| == LIMIT {
      TakeMore(ordered, Interleave(next4, next6));
    } else {
      assert ordered + Interleave([], []) == ordered;
    }
  }

  /** One round of the loop takes one path of each family. */
  lemma InterleaveStep(a: seq<Candidate>, b: seq<Candidate>)
    ensures Interleave(a, b) ==
      (if a == [] then [] else [a[0]]) + (if b == [] then [] else [b[0]]) +
      Interleave(if a == [] then [] else a[1..], if b == [] then [] else b[1..])
  {
    if a == [] {
      assert Interleave([], b) == b;
    } else if b == [] {
      assert Interleave([], a[1..]) == a[1..];
      assert Interleave(a[1..], []) == a[1..] by { InterleaveNone(a[1..]); }
    }
  }

  lemma {:induction false} InterleaveNone(a: seq<Candidate>)
    ensures Interleave(a, []) == a
  {
    if a != [] {
      assert Interleave([], a[1..]) == a[1..];
    }
  }
}
