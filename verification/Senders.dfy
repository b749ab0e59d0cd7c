/**
 The sender: claims the oldest batch, posts it, and deletes, quarantines or
 returns it according to the answer, with exponential backoff in between.
 Time is in nanoseconds.
 */
module Senders {
  import opened Tailing
  import opened Names
  import opened Text
  import opened Schema
  import opened Eviction
  import opened BatchStores
  import opened QueueLaws

  const SECOND := 1000 * MILLISECOND
  const INITIAL_DELAY := SECOND
  const MAXIMUM_DELAY := 60 * SECOND
  const POLL_DELAY := SECOND

  // ---------------------------------------------------------------- one answer

  /** What came back, if anything; the Retry-After header as a number and as an HTTP date. */
  datatype Answer = NoAnswer | Answered(status: int, seconds: Option<int>, date: Option<int>)

  datatype Disposition = Succeeded | Retry | RateLimited(wait: Option<int>) | Failed

  /** A header that is neither a non-negative number nor a date says nothing; a number too
      large for a duration counts as the longest one, and a date in the past as no wait. */
  function RetryAfter(seconds: Option<int>, date: Option<int>, now: int): (wait: Option<int>)
    ensures wait.Some? ==> wait.value >= 0
    ensures wait.None? <==> (seconds.Some? ==> seconds.value < 0) && date.None?
    ensures seconds.Some? && seconds.value >= 0 ==> wait.value % SECOND == 0 || wait.value == MAX_DURATION
    ensures seconds.Some? && 0 <= seconds.value ==> wait.value <= MAX_DURATION
  {
    if seconds.Some? && seconds.value >= 0 then
      Some(if seconds.value > MAX_DURATION / SECOND then MAX_DURATION else seconds.value * SECOND)
    else if date.Some? then
      Some(if Since(date.value, now) < 0 then 0 else Since(date.value, now))
    else None
  }

  function Classify(fileOpened: bool, answer: Answer, now: int): Disposition {
    if !fileOpened || answer.NoAnswer? then Retry
    else if answer.status == 202 then Succeeded
    else if answer.status == 400 || answer.status == 413 then Failed
    else if answer.status == 429 then RateLimited(RetryAfter(answer.seconds, answer.date, now))
    else Retry
  }

  function NextDelay(delay: int): (next: int)
    ensures delay >= INITIAL_DELAY ==> delay < next <= MAXIMUM_DELAY || next == MAXIMUM_DELAY
  {
    if delay >= MAXIMUM_DELAY / 2 then MAXIMUM_DELAY else delay * 2
  }

  // ---------------------------------------------------------------- one round

  /** How the file operations after an answer go. */
  datatype Outcome = Outcome(removeOk: bool, moveOk: bool, renameOk: bool, stuck: set<string>)

  /** What becomes of a claimed batch, and whether it left the queue. */
  function Settle(d: Disk, maxBytes: int, claimed: string, disposition: Disposition, o: Outcome): (Disk, bool) {
    if disposition == Succeeded && DeleteClaim(d, claimed, o.removeOk).1 then DeleteClaim(d, claimed, o.removeOk)
    else if disposition == Failed && MoveToFailed(d, claimed, o.moveOk).1 then MoveToFailed(d, claimed, o.moveOk)
    else (Return(d, maxBytes, claimed, o.renameOk, o.stuck).0, false)
  }

  /** How long to wait after a round, and the delay to use next. */
  function Backoff(disposition: Disposition, gone: bool, delay: int): (int, int) {
    if gone then (0, if disposition == Succeeded then INITIAL_DELAY else delay)
    else if disposition.RateLimited? && disposition.wait.Some? then (disposition.wait.value, delay)
    else (delay, NextDelay(delay))
  }

  /** Everything that one turn of the loop meets. */
  datatype Turn = Turn(listOk: bool, claimStuck: set<string>, fileOpened: bool, answer: Answer, now: int, outcome: Outcome)

  datatype Progress = Progress(disk: Disk, delay: int, waits: seq<int>)

  function Take(g: Progress, maxBytes: int, t: Turn): Progress {
    var (d, claimed) := ClaimOldest(g.disk, t.claimStuck);
    if !t.listOk then g.(waits := g.waits + [POLL_DELAY])
    else if claimed == "" then g.(waits := g.waits + [POLL_DELAY])
    else
      var disposition := Classify(t.fileOpened, t.answer, t.now);
      var (d2, gone) := Settle(d, maxBytes, claimed, disposition, t.outcome);
      var (wait, delay) := Backoff(disposition, gone, g.delay);
      Progress(d2, delay, if gone then g.waits else g.waits + [wait])
  }

  function TakeAll(g: Progress, maxBytes: int, turns: seq<Turn>): Progress {
    if turns == [] then g else Take(TakeAll(g, maxBytes, turns[..|turns| - 1]), maxBytes, turns[|turns| - 1])
  }

  class Sender {
    const store: BatchStore

    constructor (store: BatchStore)
      ensures this.store == store
    {
      this.store := store;
    }

    /** The loop, for as many turns as it makes before it is stopped; `waits` are its pauses. */
    method Run(turns: seq<Turn>) returns (waits: seq<int>, delay: int)
      modifies store
      ensures Progress(store.State(), delay, waits) == TakeAll(Progress(old(store.State()), INITIAL_DELAY, []), store.maxBytes, turns)
    {
      hide ClaimOldest, DeleteClaim, MoveToFailed, Return;
      ghost var start := Progress(store.State(), INITIAL_DELAY, []);
      delay, waits := INITIAL_DELAY, [];
      for i := 0 to |turns|
        invariant Progress(store.State(), delay, waits) == TakeAll(start, store.maxBytes, turns[..i])
      {
        assert turns[..i + 1][..i] == turns[..i];
        delay, waits := TakeTurn(turns[i], delay, waits);
      }
      assert turns[..|turns|] == turns;
    }

    method TakeTurn(t: Turn, delayBefore: int, waitsBefore: seq<int>) returns (delay: int, waits: seq<int>)
      modifies store
      ensures Progress(store.State(), delay, waits) == Take(Progress(old(store.State()), delayBefore, waitsBefore), store.maxBytes, t)
    {
      hide ClaimOldest, DeleteClaim, MoveToFailed, Return;
      delay, waits := delayBefore, waitsBefore;
      if !t.listOk {
        waits := waits + [POLL_DELAY];
        return;
      }
      var claimed := store.ClaimOldestBatch(t.claimStuck);
      if claimed == "" {
        NoClaimNoChange(old(store.State()), t.claimStuck);
        waits := waits + [POLL_DELAY];
        return;
      }
      var disposition := Classify(t.fileOpened, t.answer, t.now);
      match disposition
      case Succeeded =>
        DeleteFailsQuietly(store.State(), claimed, t.outcome.removeOk);
        var ok := store.DeleteClaimed(claimed, t.outcome.removeOk);
        if !ok {
          var returned := store.UnclaimBatch(claimed, t.outcome.renameOk, t.outcome.stuck);
          waits := waits + [delay];
          delay := NextDelay(delay);
          return;
        }
        delay := INITIAL_DELAY;
      case Failed =>
        MoveFailsQuietly(store.State(), claimed, t.outcome.moveOk);
        var ok := store.MoveClaimedToFailed(claimed, t.outcome.moveOk);
        if !ok {
          var returned := store.UnclaimBatch(claimed, t.outcome.renameOk, t.outcome.stuck);
          waits := waits + [delay];
          delay := NextDelay(delay);
        }
      case RateLimited(wait) =>
        var returned := store.UnclaimBatch(claimed, t.outcome.renameOk, t.outcome.stuck);
        if wait.Some? {
          waits := waits + [wait.value];
        } else {
          waits := waits + [delay];
          delay := NextDelay(delay);
        }
      case Retry =>
        var returned := store.UnclaimBatch(claimed, t.outcome.renameOk, t.outcome.stuck);
        waits := waits + [delay];
        delay := NextDelay(delay);
    }
  }

  lemma NoClaimNoChange(d: Disk, stuck: set<string>)
    ensures ClaimOldest(d, stuck).1 == "" ==> ClaimOldest(d, stuck).0 == d
  {
  }

  lemma DeleteFailsQuietly(d: Disk, claimed: string, removeOk: bool)
    ensures !DeleteClaim(d, claimed, removeOk).1 ==> DeleteClaim(d, claimed, removeOk).0 == d
  {
  }

  lemma MoveFailsQuietly(d: Disk, claimed: string, moveOk: bool)
    ensures !MoveToFailed(d, claimed, moveOk).1 ==> MoveToFailed(d, claimed, moveOk).0 == d
  {
  }

  // ---------------------------------------------------------------- what the loop does to a batch

  /** A claimed batch leaves the queue as delivered only on a 202 and as failed only on a 400
      or 413. On anything else, and when the file operation fails, it goes back to the queue
      with its contents, unless the queue is over its limit and drops it; and when that rename
      fails too, nothing changes and the batch stays claimed. */
  lemma SettleMeaning(d: Disk, maxBytes: int, claimed: string, fileOpened: bool, answer: Answer, now: int, o: Outcome)
    requires EndsWith(claimed, CLAIMED) && claimed in d.directory
    ensures var n := WithoutSuffix(claimed, CLAIM);
            var (e, gone) := Settle(d, maxBytes, claimed, Classify(fileOpened, answer, now), o);
            && (gone && answer.Answered? && answer.status == 202 ==>
                  e.delivered == d.delivered[n := d.directory[claimed]] && e.failed == d.failed)
            && (gone ==> fileOpened && answer.Answered? && answer.status in [202, 400, 413] && claimed !in e.directory)
            && (gone && answer.status != 202 ==> e.failed == d.failed[n := d.directory[claimed]] && e.delivered == d.delivered)
            && (!gone && o.renameOk ==>
                  && e.delivered == d.delivered && e.failed == d.failed && claimed !in e.directory
                  && (n in e.directory || n in e.evicted) && (n in e.directory ==> e.directory[n] == d.directory[claimed]))
            && (!gone && !o.renameOk ==> e == d)
            && (gone <==> fileOpened && answer.Answered?
                          && ((answer.status == 202 && o.removeOk) || (answer.status in [400, 413] && o.moveOk)))
  {
    ClaimedName(claimed);
    var n := WithoutSuffix(claimed, CLAIM);
    var back := Rename(d.directory, claimed, n);
    ClaimName(n);
    hide EndsWith, WithoutSuffix, VictimSet;
    assert back[n] == d.directory[claimed];
  }

  /** `after` is `before` and one more pause. */
  predicate Pauses(before: seq<int>, after: seq<int>, wait: int) {
    after == before + [wait]
  }

  /** The claim `c` is back in the queue, under its limit, unless the rename failed. */
  ghost predicate GivenBack(d: Disk, c: string, e: Disk, maxBytes: int, o: Outcome)
    requires c in d.directory && |c| >= 8
  {
    if o.renameOk then
      Limited(d.(directory := (d.directory - {c})[c[..|c| - 8] := d.directory[c]]), e, maxBytes, o.stuck)
    else e == d
  }

  /** One turn of the loop, by what it meets. Without a batch it pauses for a second. A batch that is
      answered 202 is delivered and the delay set back to a second; one that is answered 400 or 413
      is put with the failed ones; neither pauses. Otherwise, or if the file cannot be removed or
      moved, it is given back. Then a 429 with a usable header pauses exactly as long as the header
      asks, up to the longest duration, and leaves the delay; and everything else pauses for the
      delay and doubles it, up to a minute. */
  lemma TurnMeaning(g: Progress, maxBytes: int, t: Turn)
    ensures var (d, c) := ClaimOldest(g.disk, t.claimStuck);
            var r := Take(g, maxBytes, t);
            if !t.listOk || c == "" then
              r.disk == g.disk && r.delay == g.delay && Pauses(g.waits, r.waits, 1_000_000_000)
            else
              && |c| >= 8 && c in d.directory
              && (if !t.fileOpened || t.answer.NoAnswer? then
                    GivenBack(d, c, r.disk, maxBytes, t.outcome)
                    && Pauses(g.waits, r.waits, g.delay) && Doubles(g.delay, r.delay)
                  else if t.answer.status == 202 && t.outcome.removeOk then
                    r.disk == d.(directory := d.directory - {c}, delivered := d.delivered[c[..|c| - 8] := d.directory[c]])
                    && r.waits == g.waits && r.delay == 1_000_000_000
                  else if t.answer.status in [400, 413] && t.outcome.moveOk then
                    r.disk == d.(directory := d.directory - {c}, failed := d.failed[c[..|c| - 8] := d.directory[c]])
                    && r.waits == g.waits && r.delay == g.delay
                  else if t.answer.status == 429 && Asks(t.answer, t.now).Some? then
                    GivenBack(d, c, r.disk, maxBytes, t.outcome)
                    && Pauses(g.waits, r.waits, Asks(t.answer, t.now).value) && r.delay == g.delay
                  else
                    GivenBack(d, c, r.disk, maxBytes, t.outcome)
                    && Pauses(g.waits, r.waits, g.delay) && Doubles(g.delay, r.delay))
  {
    hide ClaimOldest, Return, DeleteClaim, MoveToFailed, ClaimFile, Limited;
    NoClaimNoChange(g.disk, t.claimStuck);
    ClaimedFile(g.disk, t.claimStuck);
    var (d, c) := ClaimOldest(g.disk, t.claimStuck);
    if c != "" {
      LongEnough(c);
      GoneMeaning(d, c, t.outcome.removeOk);
      GoneMeaning(d, c, t.outcome.moveOk);
      ReturnMeaning(d, maxBytes, c, t.outcome.renameOk, t.outcome.stuck);
    }
  }

  predicate Doubles(before: int, after: int) {
    after == if 2 * before > 60_000_000_000 then 60_000_000_000 else 2 * before
  }

  /** The pause that an answer asks for, in nanoseconds: a number of seconds, or else a date. */
  function Asks(answer: Answer, now: int): Option<int>
    requires answer.Answered?
  {
    match (answer.seconds, answer.date)
    case (Some(k), _) =>
      if k > 9_223_372_036 then Some(0x7FFF_FFFF_FFFF_FFFF)
      else if k >= 0 then Some(k * 1_000_000_000)
      else if answer.date.None? then None
      else Some(Until(answer.date.value, now))
    case (None, Some(date)) => Some(Until(date, now))
    case (None, None) => None
  }

  function Until(date: int, now: int): int {
    if date <= now then 0 else if date - now > 0x7FFF_FFFF_FFFF_FFFF then 0x7FFF_FFFF_FFFF_FFFF else date - now
  }

  // ---------------------------------------------------------------- backoff

  predicate DelayOk(delay: int) {
    INITIAL_DELAY <= delay <= MAXIMUM_DELAY
  }

  /** The delay always lies between a second and a minute. */
  lemma {:induction false} DelayWithin(g: Progress, maxBytes: int, turns: seq<Turn>)
    requires DelayOk(g.delay)
    ensures DelayOk(TakeAll(g, maxBytes, turns).delay)
  {
    hide ClaimOldest, Settle, Classify;
    if turns != [] { DelayWithin(g, maxBytes, turns[..|turns| - 1]); }
  }

  function Doubled(k: nat): int {
    if k == 0 then INITIAL_DELAY else NextDelay(Doubled(k - 1))
  }

  function Pow2(k: nat): nat {
    if k == 0 then 1 else 2 * Pow2(k - 1)
  }

  /** After `k` fruitless rounds in a row the delay is 2^k seconds, capped at a minute. */
  lemma {:induction false} DelayDoubles(k: nat)
    ensures Doubled(k) == if Pow2(k) < 60 then Pow2(k) * SECOND else MAXIMUM_DELAY
  {
    if k > 0 { DelayDoubles(k - 1); }
  }

  /** A round that finds a batch and no usable answer waits the delay and doubles it. */
  predicate Fruitless(t: Turn) {
    t.listOk && (!t.fileOpened || t.answer.NoAnswer? || t.answer.status >= 500)
  }

  lemma FruitlessTake(g: Progress, maxBytes: int, t: Turn)
    requires Fruitless(t) && ClaimOldest(g.disk, t.claimStuck).1 != ""
    ensures Take(g, maxBytes, t).delay == NextDelay(g.delay) && Take(g, maxBytes, t).waits == g.waits + [g.delay]
  {
    hide ClaimOldest, DeleteClaim, MoveToFailed, Return, NextDelay;
  }

  /** Every turn of the run finds a batch and no usable answer. */
  ghost predicate AllFruitless(g: Progress, maxBytes: int, turns: seq<Turn>) {
    forall i | 0 <= i < |turns| ::
      Fruitless(turns[i]) && ClaimOldest(TakeAll(g, maxBytes, turns[..i]).disk, turns[i].claimStuck).1 != ""
  }

  lemma AllFruitlessBefore(g: Progress, maxBytes: int, turns: seq<Turn>)
    requires turns != [] && AllFruitless(g, maxBytes, turns)
    ensures var n := |turns| - 1;
            && AllFruitless(g, maxBytes, turns[..n])
            && Fruitless(turns[n]) && ClaimOldest(TakeAll(g, maxBytes, turns[..n]).disk, turns[n].claimStuck).1 != ""
  {
    hide ClaimOldest, TakeAll, Fruitless;
    var n := |turns| - 1;
    forall i | 0 <= i < n ensures turns[..n][..i] == turns[..i] && turns[..n][i] == turns[i] {}
  }

  lemma {:induction false} FruitlessRun(g: Progress, maxBytes: int, turns: seq<Turn>)
    requires g.delay == INITIAL_DELAY && AllFruitless(g, maxBytes, turns)
    ensures TakeAll(g, maxBytes, turns).delay == Doubled(|turns|)
    ensures TakeAll(g, maxBytes, turns).waits == g.waits + seq(|turns|, i requires 0 <= i => Doubled(i))
  {
    hide ClaimOldest, Take, NextDelay, Fruitless, AllFruitless;
    if turns != [] {
      var n := |turns| - 1;
      AllFruitlessBefore(g, maxBytes, turns);
      FruitlessRun(g, maxBytes, turns[..n]);
      FruitlessTake(TakeAll(g, maxBytes, turns[..n]), maxBytes, turns[n]);
      WaitsGrow(n);
    }
  }

  lemma WaitsGrow(n: nat)
    ensures seq(n + 1, i requires 0 <= i => Doubled(i)) == seq(n, i requires 0 <= i => Doubled(i)) + [Doubled(n)]
  {
  }
}
