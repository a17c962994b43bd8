/** The bounded diagnostic ring, as a view of every line ever retained. */
module LogRing {
  import opened Wrappers
  import opened Text

  const MAX_LINES: nat := 256
  const MAX_BYTES: nat := 131072
  const MAX_RAW_EVENT: nat := 16384
  const MAX_LINE_CHARS: nat := 4000
  const BATCH_LINES: nat := 100
  const U64_MAX: nat := 0xFFFF_FFFF_FFFF_FFFF
  const OMITTED := "diagnostic event omitted (size limit)"

  type Entry = (nat, string)

  datatype Batch = Batch(lines: seq<string>, next: nat)

  function Min(a: nat, b: nat): nat {
    if a < b then a else b
  }

  function Max(a: nat, b: nat): nat {
    if a < b then b else a
  }

  function Truncated(line: string): string {
    line[..Min(|line|, MAX_LINE_CHARS)]
  }

  /** The lines of one event that are retained: blank ones go, long ones are cut. */
  function Kept(lines: seq<string>): seq<string> {
    if lines == [] then []
    else (if Trim(lines[0]) == "" then [] else [Truncated(lines[0])]) + Kept(lines[1..])
  }

  /** What one recorded event adds; `cleaned` is its redacted text. */
  function Recorded(text: string, cleaned: string): seq<string> {
    Kept(Lines(if Bytes(text) > MAX_RAW_EVENT then OMITTED else cleaned))
  }

  function Weight(lines: seq<string>): nat {
    if lines == [] then 0 else Bytes(lines[0]) + Weight(lines[1..])
  }

  predicate Fits(lines: seq<string>) {
    |lines| <= MAX_LINES && Weight(lines) <= MAX_BYTES
  }

  /** How many of the lines must go before the rest fits. */
  function Evicted(all: seq<string>): (n: nat)
    ensures n <= |all|
  {
    if Fits(all) then 0 else 1 + Evicted(all[1..])
  }

  /** What the ring holds of everything ever retained. */
  function Tail(all: seq<string>): seq<string> {
    all[Evicted(all)..]
  }

  predicate Short(lines: seq<string>) {
    forall l :: l in lines ==> |l| <= MAX_LINE_CHARS
  }

  /** Sequence number of the n-th line: a saturating 64-bit counter. */
  function Number(n: nat): nat {
    Min(n, U64_MAX)
  }

  function Numbered(all: seq<string>): (r: seq<Entry>)
    ensures |r| == |all|
    ensures forall i :: 0 <= i < |all| ==> r[i] == (Number(i + 1), all[i])
  {
    seq(|all|, i requires 0 <= i < |all| => (Number(i + 1), all[i]))
  }

  // -----------------------------------------------------------------------------
  // The longest suffix
  // -----------------------------------------------------------------------------

  lemma {:induction false} WeightConcat(a: seq<string>, b: seq<string>)
    ensures Weight(a + b) == Weight(a) + Weight(b)
  {
    if a == [] {
      assert a + b == b;
    } else {
      assert (a + b)[1..] == a[1..] + b;
      WeightConcat(a[1..], b);
    }
  }

  lemma FitsWithin(all: seq<string>, from: nat, to: nat)
    requires from <= to <= |all| && Fits(all)
    ensures Fits(all[from..to])
  {
    assert all == all[..from] + all[from..to] + all[to..];
    WeightConcat(all[..from] + all[from..to], all[to..]);
    WeightConcat(all[..from], all[from..to]);
  }

  /** A suffix fits exactly when it is no longer than the tail. */
  lemma {:induction false} TailIsLongest(all: seq<string>, from: nat)
    requires from <= |all|
    ensures Fits(all[from..]) <==> |all| - from <= |Tail(all)|
  {
    if Fits(all) {
      FitsWithin(all, from, |all|);
      assert all[from..|all|] == all[from..];
    } else if from == 0 {
      assert all[0..] == all;
    } else {
      TailIsLongest(all[1..], from - 1);
      assert all[1..][from - 1..] == all[from..];
    }
  }

  /** Recording more lines never brings an evicted line back. */
  lemma EvictedGrows(all: seq<string>, more: seq<string>)
    ensures Evicted(all) <= Evicted(all + more)
  {
    hide Evicted, Fits;
    var n := Evicted(all + more);
    if n <= |all| {
      TailIsLongest(all + more, n);
      assert (all + more)[n..] == all[n..] + more;
      FitsWithin(all[n..] + more, 0, |all| - n);
      assert (all[n..] + more)[0..|all| - n] == all[n..];
      TailIsLongest(all, n);
    }
  }

  /** Only the ring is needed to compute the next ring. */
  lemma TailStep(all: seq<string>, more: seq<string>)
    ensures Tail(all + more) == Tail(Tail(all) + more)
  {
    hide Evicted, Fits;
    var s, kept, gone := all + more, Tail(all) + more, Evicted(all);
    EvictedGrows(all, more);
    assert kept == s[gone..];
    SuffixOfSuffix(s, gone, Evicted(s));
    SuffixOfSuffix(s, gone, gone + Evicted(kept));
    TailIsLongest(s, Evicted(s));
    TailIsLongest(kept, Evicted(s) - gone);
    TailIsLongest(s, gone + Evicted(kept));
    TailIsLongest(kept, Evicted(kept));
  }

  lemma SuffixOfSuffix<T>(s: seq<T>, i: nat, j: nat)
    requires i <= j <= |s|
    ensures s[i..][j - i..] == s[j..]
  {
  }

  /** The newest line survives: one line can never exceed the byte bound. */
  lemma NewestIsKept(all: seq<string>, line: string)
    requires |line| <= MAX_LINE_CHARS
    ensures Evicted(all + [line]) <= |all|
    ensures Tail(all + [line])[|Tail(all + [line])| - 1] == line
  {
    hide Evicted;
    var s := all + [line];
    assert s[|all|..] == [line];
    assert Weight([line]) == Bytes(line) + Weight([]);
    TailIsLongest(s, |all|);
  }

  lemma {:induction false} KeptIsShort(lines: seq<string>)
    ensures Short(Kept(lines))
  {
    hide Trim;
    if lines != [] {
      KeptIsShort(lines[1..]);
    }
  }

  // -----------------------------------------------------------------------------
  // Reading a batch
  // -----------------------------------------------------------------------------

  /** The entries numbered above the cursor. */
  function Above(lines: seq<Entry>, cursor: nat): seq<Entry> {
    if lines == [] then []
    else (if lines[0].0 > cursor then [lines[0]] else []) + Above(lines[1..], cursor)
  }

  function Texts(entries: seq<Entry>): (r: seq<string>)
    ensures |r| == |entries| && forall i :: 0 <= i < |r| ==> r[i] == entries[i].1
  {
    seq(|entries|, i requires 0 <= i < |entries| => entries[i].1)
  }

  function Offered(lines: seq<Entry>, cursor: Option<nat>, initial: nat): seq<Entry> {
    if cursor.Some? then Above(lines, cursor.value)
    else
      var first := Min(initial, MAX_LINES);
      if |lines| > first then lines[|lines| - first..] else lines
  }

  /** The first of the offered entries; an empty batch keeps the position given. */
  function Cut(offered: seq<Entry>, limit: nat, otherwise: nat): Batch {
    var s := offered[..Min(|offered|, Min(limit, BATCH_LINES))];
    Batch(Texts(s), if s == [] then otherwise else s[|s| - 1].0)
  }

  function Taken(lines: seq<Entry>, sequence: nat, cursor: Option<nat>, initial: nat, limit: nat): Batch {
    Cut(Offered(lines, cursor, initial), limit, if cursor.Some? then cursor.value else sequence)
  }

  /** A batch from the ring that holds the tail of everything retained. */
  function BatchOf(all: seq<string>, cursor: Option<nat>, initial: nat, limit: nat): Batch {
    Taken(Numbered(all)[Evicted(all)..], Number(|all|), cursor, initial, limit)
  }

  /** Where the entries above a cursor begin. */
  function Resume(all: seq<string>, cursor: nat, from: nat): (n: nat)
    requires from <= |all|
    ensures from <= n <= |all|
  {
    if cursor >= U64_MAX then |all| else Max(from, Min(cursor, |all|))
  }

  lemma {:induction false} AboveIsSuffix(all: seq<string>, cursor: nat, from: nat)
    requires from <= |all|
    ensures Above(Numbered(all)[from..], cursor) == Numbered(all)[Resume(all, cursor, from)..]
    decreases |all| - from
  {
    var entries := Numbered(all)[from..];
    if from < |all| {
      AboveIsSuffix(all, cursor, from + 1);
      assert entries[1..] == Numbered(all)[from + 1..];
      assert entries[0] == (Number(from + 1), all[from]);
    }
  }

  /** The batch of consecutive lines that starts after the first `from`. */
  function Consecutive(all: seq<string>, from: nat, limit: nat, otherwise: nat): Batch
    requires from <= |all|
  {
    var n := Min(|all| - from, Min(limit, BATCH_LINES));
    Batch(all[from..from + n], if n == 0 then otherwise else Number(from + n))
  }

  lemma CutIsConsecutive(all: seq<string>, from: nat, limit: nat, otherwise: nat)
    requires from <= |all|
    ensures Cut(Numbered(all)[from..], limit, otherwise) == Consecutive(all, from, limit, otherwise)
  {
    var n := Min(|all| - from, Min(limit, BATCH_LINES));
    assert Texts(Numbered(all)[from..][..n]) == all[from..from + n];
  }

  /**
   * With a cursor, a batch is the first lines after it that the ring still holds,
   * and as many of them as the limit allows.
   */
  lemma BatchResumes(all: seq<string>, cursor: nat, initial: nat, limit: nat)
    ensures
      BatchOf(all, Some(cursor), initial, limit)
        == Consecutive(all, Resume(all, cursor, Evicted(all)), limit, cursor)
  {
    hide Evicted, Numbered, Above, Cut, Consecutive, Resume;
    AboveIsSuffix(all, cursor, Evicted(all));
    CutIsConsecutive(all, Resume(all, cursor, Evicted(all)), limit, cursor);
  }

  /** Where a reader without a cursor begins. */
  function Recent(all: seq<string>, initial: nat): (n: nat)
    ensures Evicted(all) <= n <= |all|
  {
    var first := Min(initial, MAX_LINES);
    Max(Evicted(all), if |all| > first then |all| - first else 0)
  }

  /** Without a cursor it is the last few lines, and the cursor moves past all of them. */
  lemma BatchStarts(all: seq<string>, initial: nat, limit: nat)
    ensures
      BatchOf(all, None, initial, limit)
        == Consecutive(all, Recent(all, initial), limit, Number(|all|))
  {
    hide Evicted, Numbered, Above, Cut, Consecutive;
    SuffixOfSuffix(Numbered(all), Evicted(all), Recent(all, initial));
    CutIsConsecutive(all, Recent(all, initial), limit, Number(|all|));
  }

  /**
   * A reader that has caught up is offered the next line exactly when the counter
   * has not saturated; from then on every batch is empty.
   */
  lemma CaughtUpReader(all: seq<string>, line: string)
    requires |line| <= MAX_LINE_CHARS
    ensures
      BatchOf(all + [line], Some(Number(|all|)), 3, BATCH_LINES).lines
        == if |all| < U64_MAX then [line] else []
  {
    hide Evicted, BatchOf;
    var s := all + [line];
    NewestIsKept(all, line);
    BatchResumes(s, Number(|all|), 3, BATCH_LINES);
    assert s[|all|..|all| + 1] == [line];
  }

  /** The counterexample: the line after 2^64 - 1 others never reaches the reader. */
  lemma SaturatedLineIsLost()
    ensures
      var all := seq(U64_MAX, _ => "x");
      BatchOf(all + ["y"], Some(Number(|all|)), 3, BATCH_LINES).lines == []
  {
    hide BatchOf;
    CaughtUpReader(seq(U64_MAX, _ => "x"), "y");
  }

  // -----------------------------------------------------------------------------
  // The ring in place
  // -----------------------------------------------------------------------------

  class Ring {
    var lines: seq<Entry>
    var sequence: nat
    var bytes: nat
    ghost var all: seq<string>

    constructor ()
      ensures Valid() && all == []
    {
      lines, sequence, bytes, all := [], 0, 0, [];
    }

    /** The ring is the longest suffix that fits, numbered, with its exact byte count. */
    ghost predicate Valid()
      reads this
    {
      && Short(all)
      && lines == Numbered(all)[Evicted(all)..]
      && sequence == Number(|all|)
      && bytes == Weight(Tail(all))
    }

    /** Evicts from the front until both bounds hold. */
    method Evict(ghost from: nat)
      requires from <= Evicted(all)
      requires lines == Numbered(all)[from..] && bytes == Weight(all[from..])
      modifies `lines, `bytes
      ensures lines == Numbered(all)[Evicted(all)..] && bytes == Weight(Tail(all))
    {
      hide Evicted, Numbered, Weight, Bytes;
      ghost var k := from;
      while |lines| > MAX_LINES || bytes > MAX_BYTES
        invariant 0 <= k <= Evicted(all)
        invariant lines == Numbered(all)[k..] && bytes == Weight(all[k..])
        decreases |lines|
      {
        Overfull(all, k);
        if lines != [] {
          bytes := bytes - Bytes(lines[0].1);
          lines := lines[1..];
          k := k + 1;
        }
      }
      Settled(all, k);
    }

    method Push(line: string)
      requires Valid() && |line| <= MAX_LINE_CHARS
      modifies this
      ensures Valid() && all == old(all) + [line]
      ensures lines != [] && lines[|lines| - 1] == (sequence, line)
    {
      hide Evicted, Numbered, Weight, Bytes, Short;
      ghost var from := Evicted(all);
      Grown(all, line);
      sequence := if sequence < U64_MAX then sequence + 1 else U64_MAX;
      bytes := bytes + Bytes(line);
      lines := lines + [(sequence, line)];
      all := all + [line];
      Evict(from);
    }

    method Retain(text: string)
      requires Valid()
      modifies this
      ensures Valid() && all == old(all) + Kept(Lines(text))
    {
      hide Lines, Trim, Valid;
      var pending := Lines(text);
      while pending != []
        invariant Valid() && all + Kept(pending) == old(all) + Kept(Lines(text))
        decreases |pending|
      {
        KeptStep(all, pending);
        if Trim(pending[0]) != "" {
          Push(Truncated(pending[0]));
        }
        pending := pending[1..];
      }
    }

    method Record(text: string, cleaned: string)
      requires Valid()
      modifies this
      ensures Valid() && all == old(all) + Recorded(text, cleaned)
    {
      if Bytes(text) > MAX_RAW_EVENT {
        Retain(OMITTED);
      } else {
        Retain(cleaned);
      }
    }

    method TakeBatch(cursor: Option<nat>, initial: nat, limit: nat) returns (batch: Batch)
      requires Valid()
      ensures batch == BatchOf(all, cursor, initial, limit)
    {
      batch := Taken(lines, sequence, cursor, initial, limit);
    }
  }

  lemma KeptStep(all: seq<string>, lines: seq<string>)
    requires lines != []
    ensures
      all + Kept(lines)
        == (if Trim(lines[0]) == "" then all else all + [Truncated(lines[0])]) + Kept(lines[1..])
  {
    hide Trim, Truncated;
    if Trim(lines[0]) == "" {
      assert Kept(lines) == Kept(lines[1..]);
    } else {
      assert Kept(lines) == [Truncated(lines[0])] + Kept(lines[1..]);
    }
  }

  lemma Grown(all: seq<string>, line: string)
    requires Short(all) && |line| <= MAX_LINE_CHARS
    ensures Short(all + [line])
    ensures var k := Evicted(all); var s := all + [line];
            && k <= Evicted(s) < |s|
            && Numbered(s)[k..] == Numbered(all)[k..] + [(Number(|s|), line)]
            && Weight(s[k..]) == Weight(all[k..]) + Bytes(line)
  {
    hide Evicted, Bytes;
    var k := Evicted(all);
    EvictedGrows(all, [line]);
    NewestIsKept(all, line);
    NumberedGrows(all, line, k);
    assert (all + [line])[k..] == all[k..] + [line];
    WeightConcat(all[k..], [line]);
    assert Weight([line]) == Bytes(line) + Weight([]);
  }

  lemma NumberedGrows(all: seq<string>, line: string, k: nat)
    requires k <= |all|
    ensures Numbered(all + [line])[k..] == Numbered(all)[k..] + [(Number(|all| + 1), line)]
  {
  }

  lemma Overfull(all: seq<string>, k: nat)
    requires k <= Evicted(all) && !Fits(all[k..])
    ensures k < Evicted(all) && Weight(all[k..]) == Bytes(all[k]) + Weight(all[k + 1..])
    ensures Numbered(all)[k..] != [] && Numbered(all)[k..][1..] == Numbered(all)[k + 1..]
  {
    TailIsLongest(all, k);
    assert all[k..][1..] == all[k + 1..];
  }

  lemma Settled(all: seq<string>, k: nat)
    requires k <= Evicted(all) && Fits(all[k..])
    ensures k == Evicted(all)
  {
    TailIsLongest(all, k);
  }
}
