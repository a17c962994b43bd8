/** The loop that uploads diagnostics while the control server asks for them. */
module LogUpload {
  import opened Wrappers
  import opened Text
  import opened LogRing

  datatype Options = Options(poll: nat, flush: nat, maxRetry: nat) {
    predicate Usable() {
      poll > 0 && flush > 0 && maxRetry >= poll
    }
  }

  /** A diagnostic event and its redacted text. */
  datatype Event = Event(text: string, cleaned: string)

  datatype Answer = Requested(on: bool) | Withdrawn | Unanswered | PollCancelled

  datatype Outcome = Stored | Revoked | Lost | UploadCancelled

  /**
   * What the outside contributes to one turn of the loop: the events recorded
   * while it waits, the clock readings and the replies.
   */
  datatype Turn = Turn(
    asleep: seq<Event>, cancelled: bool, woken: nat,
    polling: seq<Event>, answer: Answer, answered: nat,
    checked: nat, uploading: seq<Event>, outcome: Outcome, finished: nat)

  /** One upload; `known` counts the lines retained when its batch was taken. */
  datatype Attempt = Attempt(batch: Batch, known: nat, acked: bool)

  /** `attempts` are the uploads of the current active period. */
  datatype World = World(
    all: seq<string>, active: bool, cursor: Option<nat>, pending: Option<Batch>,
    poll: nat, flush: nat, pollRetry: nat, uploadRetry: nat, stopped: bool,
    known: nat, attempts: seq<Attempt>)

  function Added(events: seq<Event>): seq<string> {
    if events == [] then []
    else Recorded(events[0].text, events[0].cleaned) + Added(events[1..])
  }

  function Hear(w: World, events: seq<Event>): World {
    w.(all := w.all + Added(events))
  }

  function Start(options: Options, all: seq<string>, now: nat): World {
    World(all, false, None, None, now, now, options.poll, options.poll, !options.Usable(), 0, [])
  }

  function Poll(options: Options, w: World, answer: Answer, now: nat): World {
    match answer
    case Withdrawn => w.(stopped := true)
    case PollCancelled => w.(stopped := true)
    case Unanswered =>
      w.(active := false, pending := None, cursor := None, attempts := [],
         poll := now + w.pollRetry, pollRetry := Min(w.pollRetry * 2, options.maxRetry))
    case Requested(true) =>
      w.(flush := if w.active then w.flush else now, active := true,
         pollRetry := options.poll, poll := now + options.poll)
    case Requested(false) =>
      w.(cursor := None, pending := None, attempts := [], uploadRetry := options.poll,
         active := false, pollRetry := options.poll, poll := now + options.poll)
  }

  /** The limits that the upload request itself checks before sending anything. */
  predicate Acceptable(lines: seq<string>) {
    |lines| <= 100 && Short(lines)
  }

  function Sent(lines: seq<string>, outcome: Outcome): Outcome {
    if Acceptable(lines) then outcome else Lost
  }

  /** The batch to send: the one that failed, or the next one from the ring. */
  function Choose(w: World): (r: World)
    ensures r.pending.Some?
  {
    if w.pending.Some? then w
    else w.(pending := Some(BatchOf(w.all, w.cursor, 3, BATCH_LINES)), known := |w.all|)
  }

  /** Sends the chosen batch, which is `w.pending`. */
  function Deliver(options: Options, w: World, outcome: Outcome, now: nat): World
    requires w.pending.Some?
  {
    var batch := w.pending.value;
    var after := w.(pending := None);
    match Sent(batch.lines, outcome)
    case UploadCancelled => after.(stopped := true)
    case Revoked => after.(stopped := true, attempts := w.attempts + [Attempt(batch, w.known, false)])
    case Stored =>
      after.(cursor := Some(batch.next), uploadRetry := options.poll, flush := now + options.flush,
             attempts := w.attempts + [Attempt(batch, w.known, true)])
    case Lost =>
      after.(pending := Some(batch), flush := now + w.uploadRetry,
             uploadRetry := Min(w.uploadRetry * 2, options.maxRetry),
             attempts := w.attempts + [Attempt(batch, w.known, false)])
  }

  function Upload(options: Options, w: World, uploading: seq<Event>, outcome: Outcome, now: nat): World {
    var chosen := Choose(w);
    if chosen.pending.value.lines == [] then chosen.(pending := None, flush := now + options.flush)
    else Deliver(options, Hear(chosen, uploading), outcome, now)
  }

  function Polled(options: Options, w: World, turn: Turn): World {
    var heard := Hear(w, turn.asleep);
    if turn.cancelled then heard.(stopped := true)
    else if turn.woken < heard.poll then heard
    else Poll(options, Hear(heard, turn.polling), turn.answer, turn.answered)
  }

  function Take(options: Options, w: World, turn: Turn): World {
    if w.stopped then w
    else
      var polled := Polled(options, w, turn);
      if polled.stopped || !polled.active || turn.checked < polled.flush then polled
      else Upload(options, polled, turn.uploading, turn.outcome, turn.finished)
  }

  function Run(options: Options, w: World, turns: seq<Turn>): World {
    if turns == [] then w
    else Take(options, Run(options, w, turns[..|turns| - 1]), turns[|turns| - 1])
  }

  // -----------------------------------------------------------------------------
  // What the uploads of one active period look like
  // -----------------------------------------------------------------------------

  /** How many retained lines precede the batch. */
  function First(a: Attempt): int {
    a.batch.next - |a.batch.lines|
  }

  /** The attempt carries the lines numbered up to `batch.next`, in order. */
  predicate Sound(all: seq<string>, a: Attempt) {
    && 0 < |a.batch.lines| <= 100
    && 0 <= First(a)
    && a.batch.next <= a.known <= |all|
    && a.batch.lines == all[First(a)..a.batch.next]
  }

  /**
   * A period opens with the newest lines. A failed batch is sent again unchanged.
   * After a stored one, the next batch leaves out only what the ring has evicted.
   */
  predicate Follows(all: seq<string>, before: seq<Attempt>, a: Attempt) {
    && Sound(all, a)
    && if before == [] then First(a) == Recent(all[..a.known], 3)
       else
         var last := before[|before| - 1];
         && last.known <= a.known
         && if last.acked then First(a) == Max(last.batch.next, Evicted(all[..a.known]))
            else a.batch == last.batch && a.known == last.known
  }

  predicate Chained(all: seq<string>, attempts: seq<Attempt>) {
    attempts != [] ==>
      var n := |attempts| - 1;
      Chained(all, attempts[..n]) && Follows(all, attempts[..n], attempts[n])
  }

  lemma {:induction false} ChainedGrows(all: seq<string>, more: seq<string>, attempts: seq<Attempt>)
    requires Chained(all, attempts)
    ensures Chained(all + more, attempts)
  {
    if attempts != [] {
      var n := |attempts| - 1;
      var a := attempts[n];
      ChainedGrows(all, more, attempts[..n]);
      assert (all + more)[..a.known] == all[..a.known];
      assert (all + more)[First(a)..a.batch.next] == all[First(a)..a.batch.next];
    }
  }

  lemma {:induction false} ChainedAt(all: seq<string>, attempts: seq<Attempt>, i: nat)
    requires Chained(all, attempts) && i < |attempts|
    ensures Follows(all, attempts[..i], attempts[i])
  {
    hide Follows;
    var n := |attempts| - 1;
    if i < n {
      ChainedAt(all, attempts[..n], i);
      assert attempts[..n][..i] == attempts[..i];
    }
  }

  /** Sequence numbers sent after an acknowledged batch are all above it. */
  lemma {:induction false} AcknowledgedIncrease(all: seq<string>, attempts: seq<Attempt>, i: nat, j: nat)
    requires Chained(all, attempts) && i < j < |attempts| && attempts[i].acked
    ensures attempts[i].batch.next <= First(attempts[j]) < attempts[j].batch.next
    decreases j
  {
    hide Chained;
    ChainedAt(all, attempts, j);
    assert attempts[..j][j - 1] == attempts[j - 1];
    if i < j - 1 {
      AcknowledgedIncrease(all, attempts, i, j - 1);
    }
  }

  /** A failed batch is the next one sent, unchanged. */
  lemma FailedIsRetried(all: seq<string>, attempts: seq<Attempt>, i: nat)
    requires Chained(all, attempts) && i + 1 < |attempts| && !attempts[i].acked
    ensures attempts[i + 1].batch == attempts[i].batch
  {
    hide Chained;
    ChainedAt(all, attempts, i + 1);
    assert attempts[..i + 1][i] == attempts[i];
  }

  predicate Carries(a: Attempt, line: nat) {
    First(a) <= line < a.batch.next
  }

  /** The line was gone from the ring when a batch after `line` was taken. */
  ghost predicate Missed(all: seq<string>, attempts: seq<Attempt>, line: nat) {
    exists i :: 0 < i < |attempts| && attempts[i].known <= |all| && line < Evicted(all[..attempts[i].known])
                && attempts[i - 1].batch.next <= line
  }

  /**
   * From the first batch of a period on, every line before an acknowledged position
   * was acknowledged itself or had been evicted when its turn came.
   */
  lemma {:induction false} OnlyEvictedAreSkipped(all: seq<string>, attempts: seq<Attempt>, j: nat, line: nat)
    requires Chained(all, attempts) && j < |attempts|
    requires First(attempts[0]) <= line < attempts[j].batch.next
    ensures (exists i :: 0 <= i <= j && Carries(attempts[i], line) && (attempts[i].acked || i == j))
            || Missed(all, attempts, line)
    decreases j
  {
    hide Chained, Evicted;
    ChainedAt(all, attempts, j);
    if Carries(attempts[j], line) {
    } else {
      assert attempts[..j][j - 1] == attempts[j - 1];
      var last := attempts[j - 1];
      if last.acked && last.batch.next <= line {
        assert line < Evicted(all[..attempts[j].known]);
      } else {
        OnlyEvictedAreSkipped(all, attempts, j - 1, line);
      }
    }
  }

  // -----------------------------------------------------------------------------
  // Every run
  // -----------------------------------------------------------------------------

  predicate Paced(options: Options, w: World) {
    options.Usable() ==>
      options.poll <= w.pollRetry <= options.maxRetry && options.poll <= w.uploadRetry <= options.maxRetry
  }

  /** Nothing that was or will be sent exceeds the limits of an upload. */
  predicate Polite(pending: Option<Batch>, attempts: seq<Attempt>) {
    && (pending.Some? ==> pending.value.lines != [] && Acceptable(pending.value.lines))
    && forall i :: 0 <= i < |attempts| ==> Acceptable(attempts[i].batch.lines)
  }

  /** Cursor and pending batch are determined by the uploads of the period. */
  predicate Tied(w: World) {
    && (!w.active ==> w.attempts == [])
    && if w.attempts == [] then w.cursor.None? && w.pending.None?
       else
         var last := w.attempts[|w.attempts| - 1];
         if last.acked then w.pending.None? && w.cursor == Some(last.batch.next)
         else w.pending == Some(last.batch) && w.known == last.known
  }

  predicate Inv(options: Options, w: World) {
    && Short(w.all)
    && Paced(options, w)
    && Polite(w.pending, w.attempts)
    && (w.stopped || Tied(w))
    && (|w.all| <= U64_MAX ==> Chained(w.all, w.attempts))
  }

  lemma ShortConcat(a: seq<string>, b: seq<string>)
    requires Short(a) && Short(b)
    ensures Short(a + b)
  {
  }

  lemma {:induction false} AddedIsShort(events: seq<Event>)
    ensures Short(Added(events))
  {
    hide Kept, Lines, Short;
    if events == [] {
      assert Short([]) by { NothingIsShort(); }
    } else {
      KeptIsShort(Lines(if Bytes(events[0].text) > MAX_RAW_EVENT then OMITTED else events[0].cleaned));
      AddedIsShort(events[1..]);
      ShortConcat(Recorded(events[0].text, events[0].cleaned), Added(events[1..]));
    }
  }

  lemma NothingIsShort()
    ensures Short([])
  {
  }

  lemma HearKeeps(options: Options, w: World, events: seq<Event>)
    requires Inv(options, w)
    ensures Inv(options, Hear(w, events))
  {
    hide Short, Polite, Chained, Added;
    AddedIsShort(events);
    ShortConcat(w.all, Added(events));
    if |w.all| <= U64_MAX {
      ChainedGrows(w.all, Added(events), w.attempts);
    }
  }

  lemma PollKeeps(options: Options, w: World, answer: Answer, now: nat)
    requires Inv(options, w) && !w.stopped
    ensures Inv(options, Poll(options, w, answer, now))
  {
    hide Short;
  }

  /** A batch taken from the ring is within the limits, saturated or not. */
  lemma BatchIsAcceptable(all: seq<string>, cursor: Option<nat>)
    requires Short(all)
    ensures Acceptable(BatchOf(all, cursor, 3, BATCH_LINES).lines)
  {
    hide BatchOf, Evicted;
    if cursor.Some? {
      BatchResumes(all, cursor.value, 3, BATCH_LINES);
    } else {
      BatchStarts(all, 3, BATCH_LINES);
    }
  }

  lemma ResumedFollows(all: seq<string>, attempts: seq<Attempt>, acked: bool)
    requires |all| <= U64_MAX && Chained(all, attempts)
    requires attempts != [] && attempts[|attempts| - 1].acked
    ensures var batch := BatchOf(all, Some(attempts[|attempts| - 1].batch.next), 3, BATCH_LINES);
            batch.lines != [] ==> Follows(all, attempts, Attempt(batch, |all|, acked))
  {
    hide BatchOf, Evicted, Chained;
    assert all[..|all|] == all;
    ChainedAt(all, attempts, |attempts| - 1);
    BatchResumes(all, attempts[|attempts| - 1].batch.next, 3, BATCH_LINES);
  }

  lemma StartedFollows(all: seq<string>, acked: bool)
    requires |all| <= U64_MAX
    ensures var batch := BatchOf(all, None, 3, BATCH_LINES);
            batch.lines != [] ==> Follows(all, [], Attempt(batch, |all|, acked))
  {
    hide BatchOf, Evicted;
    assert all[..|all|] == all;
    BatchStarts(all, 3, BATCH_LINES);
  }

  lemma RetriedFollows(all: seq<string>, attempts: seq<Attempt>, acked: bool)
    requires Chained(all, attempts) && attempts != [] && !attempts[|attempts| - 1].acked
    ensures var last := attempts[|attempts| - 1]; Follows(all, attempts, Attempt(last.batch, last.known, acked))
  {
  }

  /** The batch that `Choose` settles on continues the period. */
  lemma ChosenFollows(w: World, acked: bool)
    requires Tied(w) && |w.all| <= U64_MAX && Chained(w.all, w.attempts)
    requires Choose(w).pending.value.lines != []
    ensures Follows(w.all, w.attempts, Attempt(Choose(w).pending.value, Choose(w).known, acked))
  {
    hide BatchOf, Chained, Follows;
    if w.attempts == [] {
      StartedFollows(w.all, acked);
    } else if w.attempts[|w.attempts| - 1].acked {
      ResumedFollows(w.all, w.attempts, acked);
    } else {
      RetriedFollows(w.all, w.attempts, acked);
    }
  }

  lemma ChainedAppend(all: seq<string>, attempts: seq<Attempt>, a: Attempt)
    requires Chained(all, attempts) && Follows(all, attempts, a)
    ensures Chained(all, attempts + [a])
  {
    hide Follows;
    assert (attempts + [a])[..|attempts|] == attempts;
  }

  /** Appending either outcome of the chosen batch keeps the period chained. */
  lemma AttemptChains(w: World, events: seq<Event>, acked: bool)
    requires Tied(w) && Chained(w.all, w.attempts) && |w.all| <= U64_MAX
    requires Choose(w).pending.value.lines != []
    ensures Chained(w.all + Added(events), w.attempts + [Attempt(Choose(w).pending.value, Choose(w).known, acked)])
  {
    hide Chained, Follows, Choose, Added;
    ChosenFollows(w, acked);
    var a := Attempt(Choose(w).pending.value, Choose(w).known, acked);
    ChainedAppend(w.all, w.attempts, a);
    ChainedGrows(w.all, Added(events), w.attempts + [a]);
  }

  lemma UploadKeeps(options: Options, w: World, events: seq<Event>, outcome: Outcome, now: nat)
    requires Inv(options, w) && !w.stopped && w.active
    ensures Inv(options, Upload(options, w, events, outcome, now))
  {
    hide Short, Chained, Added, BatchOf, Acceptable;
    BatchIsAcceptable(w.all, w.cursor);
    AddedIsShort(events);
    ShortConcat(w.all, Added(events));
    if |w.all| <= U64_MAX {
      ChainedGrows(w.all, Added(events), w.attempts);
      if Choose(w).pending.value.lines != [] {
        AttemptChains(w, events, true);
        AttemptChains(w, events, false);
      }
    }
  }

  lemma TakeKeeps(options: Options, w: World, turn: Turn)
    requires Inv(options, w)
    ensures Inv(options, Take(options, w, turn))
  {
    hide Hear, Poll, Upload, Short, Polite, Chained;
    if !w.stopped {
      var heard := Hear(w, turn.asleep);
      HearKeeps(options, w, turn.asleep);
      HearKeeps(options, heard, turn.polling);
      assert !heard.stopped && !Hear(heard, turn.polling).stopped by { HearIsOnlyLines(w, turn); }
      PollKeeps(options, Hear(heard, turn.polling), turn.answer, turn.answered);
      var polled := Polled(options, w, turn);
      if !polled.stopped && polled.active {
        UploadKeeps(options, polled, turn.uploading, turn.outcome, turn.finished);
      }
    }
  }

  lemma HearIsOnlyLines(w: World, turn: Turn)
    ensures Hear(w, turn.asleep).stopped == w.stopped
    ensures Hear(Hear(w, turn.asleep), turn.polling).stopped == w.stopped
  {
  }

  /**
   * On every run, from every ring: the uploads of the active period are chained as
   * long as the counter has not saturated, all of them are within the limits, and
   * the retry delays stay between the poll interval and the maximum.
   */
  lemma {:induction false} EveryRun(options: Options, all: seq<string>, now: nat, turns: seq<Turn>)
    requires Short(all)
    ensures Inv(options, Run(options, Start(options, all, now), turns))
  {
    hide Inv, Take;
    if turns == [] {
      StartInv(options, all, now);
    } else {
      EveryRun(options, all, now, turns[..|turns| - 1]);
      TakeKeeps(options, Run(options, Start(options, all, now), turns[..|turns| - 1]), turns[|turns| - 1]);
    }
  }

  lemma StartInv(options: Options, all: seq<string>, now: nat)
    requires Short(all)
    ensures Inv(options, Start(options, all, now))
  {
  }

  // -----------------------------------------------------------------------------
  // The uploader
  // -----------------------------------------------------------------------------

  class Uploader {
    const options: Options
    const ring: Ring
    var active: bool
    var cursor: Option<nat>
    var pending: Option<Batch>
    var poll: nat
    var flush: nat
    var pollRetry: nat
    var uploadRetry: nat
    var stopped: bool
    ghost var known: nat
    ghost var attempts: seq<Attempt>

    constructor (options: Options, ring: Ring, now: nat)
      requires ring.Valid()
      ensures this.options == options && this.ring == ring
      ensures Here() == Start(options, ring.all, now)
    {
      this.options, this.ring := options, ring;
      poll, flush, pollRetry, uploadRetry := now, now, options.poll, options.poll;
      active, cursor, pending, stopped := false, None, None, !options.Usable();
      known, attempts := 0, [];
    }

    ghost function Here(): World
      reads this, ring
    {
      World(ring.all, active, cursor, pending, poll, flush, pollRetry, uploadRetry, stopped, known, attempts)
    }

    method Listen(events: seq<Event>)
      requires ring.Valid()
      modifies ring
      ensures ring.Valid() && ring.all == old(ring.all) + Added(events)
    {
      hide Recorded, ring.Valid;
      var rest := events;
      while rest != []
        invariant ring.Valid() && ring.all + Added(rest) == old(ring.all) + Added(events)
        decreases |rest|
      {
        ring.Record(rest[0].text, rest[0].cleaned);
        rest := rest[1..];
      }
    }

    method Ask(answer: Answer, now: nat)
      modifies this
      ensures Here() == Poll(options, old(Here()), answer, now)
    {
      match answer
      case Requested(on) =>
        if !on {
          cursor, pending, uploadRetry, attempts := None, None, options.poll, [];
        }
        if on && !active {
          flush := now;
        }
        active := on;
        pollRetry := options.poll;
        poll := now + options.poll;
      case Withdrawn =>
        stopped := true;
      case PollCancelled =>
        stopped := true;
      case Unanswered =>
        active, pending, cursor, attempts := false, None, None, [];
        poll := now + pollRetry;
        pollRetry := Min(pollRetry * 2, options.maxRetry);
    }

    /** Acts on the outcome of sending `batch`. */
    method Conclude(batch: Batch, outcome: Outcome, now: nat)
      modifies this
      ensures Here() == Deliver(options, old(Here()).(pending := Some(batch)), outcome, now)
    {
      hide Short;
      match Sent(batch.lines, outcome) {
        case UploadCancelled =>
          pending, stopped := None, true;
        case Revoked =>
          pending, stopped, attempts := None, true, attempts + [Attempt(batch, known, false)];
        case Lost =>
          pending, flush := Some(batch), now + uploadRetry;
          uploadRetry := Min(uploadRetry * 2, options.maxRetry);
          attempts := attempts + [Attempt(batch, known, false)];
        case Stored =>
          pending, cursor, uploadRetry := None, Some(batch.next), options.poll;
          attempts := attempts + [Attempt(batch, known, true)];
          flush := now + options.flush;
      }
    }

    method Flush(uploading: seq<Event>, outcome: Outcome, now: nat)
      requires ring.Valid()
      modifies this, ring
      ensures ring.Valid() && Here() == Upload(options, old(Here()), uploading, outcome, now)
    {
      hide ring.Valid, Added, BatchOf, Sent;
      var batch: Batch;
      if pending.Some? {
        batch := pending.value;
      } else {
        batch := ring.TakeBatch(cursor, 3, BATCH_LINES);
        known := |ring.all|;
      }
      pending := None;
      if batch.lines == [] {
        flush := now + options.flush;
      } else {
        Listen(uploading);
        Conclude(batch, outcome, now);
      }
    }

    method OneTurn(turn: Turn)
      requires ring.Valid() && !stopped
      modifies this, ring
      ensures ring.Valid() && Here() == Take(options, old(Here()), turn)
    {
      hide ring.Valid, Added, Upload, Poll;
      Listen(turn.asleep);
      if turn.cancelled {
        stopped := true;
        return;
      }
      if turn.woken >= poll {
        Listen(turn.polling);
        Ask(turn.answer, turn.answered);
        if stopped {
          return;
        }
      }
      if active && turn.checked >= flush {
        Flush(turn.uploading, turn.outcome, turn.finished);
      }
    }

    /** The loop, for as long as the given turns last. */
    method Loop(turns: seq<Turn>)
      requires ring.Valid()
      modifies this, ring
      ensures ring.Valid() && Here() == Run(options, old(Here()), turns)
    {
      hide ring.Valid, Take;
      var i := 0;
      while i < |turns| && !stopped
        invariant i <= |turns| && ring.Valid()
        invariant Here() == Run(options, old(Here()), turns[..i])
      {
        OneTurn(turns[i]);
        assert turns[..i + 1][..i] == turns[..i];
        i := i + 1;
      }
      if stopped {
        RestIsIdle(options, old(Here()), turns, i);
      }
      assert turns[..|turns|] == turns;
    }
  }

  /** A stopped uploader ignores the rest of its turns. */
  lemma {:induction false} RestIsIdle(options: Options, w: World, turns: seq<Turn>, from: nat)
    requires from <= |turns| && Run(options, w, turns[..from]).stopped
    ensures Run(options, w, turns) == Run(options, w, turns[..from])
    decreases |turns| - from
  {
    hide Polled, Upload;
    if from < |turns| {
      assert turns[..from + 1][..from] == turns[..from];
      RestIsIdle(options, w, turns, from + 1);
    } else {
      assert turns[..from] == turns;
    }
  }
}
