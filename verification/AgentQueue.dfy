/**
 The agent and its queue together: over every run each published batch is in
 exactly one place, each line was decided by the configured rules, and so a
 line behind a committed offset can be followed to the place of its record.
 */
module AgentQueue {
  import opened Tailing
  import opened Schema
  import opened Names
  import opened Eviction
  import opened BatchStores
  import opened Processing
  import opened Agents
  import opened AgentSafety
  import opened AgentSteps
  import opened AgentRuns
  import opened AgentBooks

  function NameOf(io: WriteIO): string
    requires io.WriteDone?
  {
    NewBatchName(io.now, io.random)
  }

  /** No batch name is drawn twice. */
  ghost predicate FreshNames(env: Env) {
    forall i: nat, j: nat | i < j && env.write(i).WriteDone? && env.write(j).WriteDone? ::
      NameOf(env.write(i)) != NameOf(env.write(j))
  }

  /** The sender passes on only the paths that a claim gave it. */
  ghost predicate ProperActs(evs: seq<Event>) {
    forall ev | ev in evs && ev.SenderActs? :: ev.op.Write? || Proper(EMPTY_DISK, ev.op)
  }

  /** `k` names one of the first `n` writes. */
  predicate Drawn(env: Env, k: string, n: nat) {
    exists i: nat :: i < n && env.write(i).WriteDone? && NameOf(env.write(i)) == k
  }

  ghost predicate QueueOk(env: Env, d: Disk, n: nat) {
    && Accounted(d)
    && (forall k | k in Book(d.published) :: Drawn(env, k, n))
    && (forall pub | pub in d.published :: pub.name in Book(d.published) && Book(d.published)[pub.name] == pub.batch)
  }

  ghost predicate Queued(env: Env, st: AgentState) {
    QueueOk(env, st.disk, st.writes) && forall d | d in st.trail :: QueueOk(env, d.disk, st.writes)
  }

  lemma DrawnMore(env: Env, d: Disk, n: nat)
    requires QueueOk(env, d, n)
    ensures QueueOk(env, d, n + 1)
  {
    forall k | k in Book(d.published) ensures Drawn(env, k, n + 1) {
      assert Drawn(env, k, n);
    }
  }

  lemma FreshWrite(env: Env, d: Disk, n: nat)
    requires FreshNames(env) && QueueOk(env, d, n) && env.write(n).WriteDone?
    ensures NameOf(env.write(n)) !in Book(d.published)
  {
    hide Accounted, Book, NameOf;
    forall k | k in Book(d.published) ensures k != NameOf(env.write(n)) {
      assert Drawn(env, k, n);
    }
  }

  lemma DrawnNow(env: Env, n: nat)
    requires env.write(n).WriteDone?
    ensures Drawn(env, NameOf(env.write(n)), n + 1)
  {
  }

  /** One more publication under the name of write `n`. */
  lemma PublishedBook(env: Env, d: Disk, e: Disk, n: nat, records: seq<Log>)
    requires QueueOk(env, d, n) && env.write(n).WriteDone? && NameOf(env.write(n)) !in Book(d.published)
    requires e.published == d.published + [Publication(NameOf(env.write(n)), Batch(records, env.write(n).size))]
    requires Accounted(e)
    ensures QueueOk(env, e, n + 1)
  {
    hide Accounted, NameOf, Book, Drawn;
    var name, b := NameOf(env.write(n)), Batch(records, env.write(n).size);
    DrawnMore(env, d, n);
    BookSnoc(d.published, Publication(name, b));
    DrawnNow(env, n);
    forall pub | pub in e.published ensures pub.name in Book(e.published) && Book(e.published)[pub.name] == pub.batch {
      if pub != Publication(name, b) { assert pub in d.published; }
    }
  }

  lemma PublishQueue(env: Env, d: Disk, n: nat, records: seq<Log>)
    requires FreshNames(env) && QueueOk(env, d, n)
    ensures QueueOk(env, Publish(d, env.maxBytes, records, env.write(n)), n + 1)
  {
    var io := env.write(n);
    DrawnMore(env, d, n);
    if io.WriteDone? {
      FreshWrite(env, d, n);
      hide QueueOk, Accounted, NewBatchName, Book, FreshNames;
      assert Accounted(d) by { QueueAccounted(env, d, n); }
      OpAccounted(d, env.maxBytes, Write(records, io));
      var e := Publish(d, env.maxBytes, records, io);
      PublishAppends(d, env.maxBytes, records, io);
      PublishedBook(env, d, e, n, records);
    }
  }

  lemma PublishAppends(d: Disk, maxBytes: int, records: seq<Log>, io: WriteIO)
    requires io.WriteDone?
    ensures Publish(d, maxBytes, records, io).published == d.published + [Publication(NameOf(io), Batch(records, io.size))]
  {
  }

  lemma QueueAccounted(env: Env, d: Disk, n: nat)
    requires QueueOk(env, d, n)
    ensures Accounted(d)
  {
  }

  lemma PutQueued(env: Env, st: AgentState)
    requires FreshNames(env) && Queued(env, st)
    ensures Queued(env, WritePending(env, st).0)
  {
    hide QueueOk, Publish, NewBatchName, FreshNames, WritePending;
    PublishQueue(env, st.disk, st.writes, st.batch);
    WriteIs(env, st);
    forall d | d in st.trail ensures QueueOk(env, d.disk, st.writes + 1) {
      DrawnMore(env, d.disk, st.writes);
    }
  }

  lemma QueueClosed(env: Env, now: int)
    requires FreshNames(env)
    ensures Closed(env, now, st => Queued(env, st))
  {
    hide QueueOk, FreshNames;
    var I := st => Queued(env, st);
    forall st, m | I(st) && Enabled(st, m) ensures I(Do(env, now, st, m)) {
      match m
      case Take(line) => hide Decide, Done;
      case Save => hide CommitAllowed, Candidate;
      case Put => PutQueued(env, st);
      case Clear =>
      case Shift(_, _, _, _) =>
    }
  }

  lemma ActQueue(env: Env, d: Disk, n: nat, op: DiskOp)
    requires QueueOk(env, d, n) && !op.Write? && Proper(EMPTY_DISK, op)
    ensures QueueOk(env, Apply(d, env.maxBytes, op), n)
  {
    OpPublished(d, env.maxBytes, op);
    QueueAccounted(env, d, n);
    OpAccounted(d, env.maxBytes, op);
    hide Accounted, Apply, Book;
  }

  lemma ActQueued(env: Env, st: AgentState, op: DiskOp)
    requires Queued(env, st) && !op.Write? && Proper(EMPTY_DISK, op)
    ensures Queued(env, Mark(st.(disk := Apply(st.disk, env.maxBytes, op))))
  {
    ActQueue(env, st.disk, st.writes, op);
    hide QueueOk, Apply, Proper;
  }

  lemma NextQueued(env: Env, st: AgentState, ev: Event)
    requires FreshNames(env) && Queued(env, st) && ProperActs([ev])
    ensures Queued(env, Next(env, st, ev))
  {
    hide Closed, Poll, FlushBatch, Agents.Flush, Apply, FreshNames, QueueOk, Proper;
    assert ev in [ev];
    if ev.Polled? || ev.Flushed? || ev.ShutDown? {
      QueueClosed(env, TimeOf(ev));
      var I := st => Queued(env, st);
      assert I(st);
      EventKeeps(env, I, st, ev);
    } else if ev.SenderActs? {
      if !ev.op.Write? { ActQueued(env, st, ev.op); }
    } else if ev.Crashed? && ev.at < |st.trail| {
      assert st.trail[ev.at] in st.trail;
      RecoveredQueue(env, st.trail[ev.at].disk, st.writes, ev.stuck, ev.nanos);
    }
  }

  lemma RecoveredQueue(env: Env, d: Disk, n: nat, stuck: set<string>, nanos: nat)
    requires QueueOk(env, d, n)
    ensures QueueOk(env, RecoverClaims(d, stuck, nanos).0, n)
  {
    OpAccounted(d, 0, Recover(stuck, nanos));
    RecoverHistory(d, Claims(d.directory), stuck, nanos);
    hide Accounted, RecoverAll, Book;
  }

  lemma {:induction false} RunQueued(env: Env, evs: seq<Event>)
    requires FreshNames(env) && ProperActs(evs)
    ensures Queued(env, Run(env, FRESH, evs))
  {
    hide Next, FreshNames, Proper;
    if evs != [] {
      var before, ev := evs[..|evs| - 1], evs[|evs| - 1];
      assert evs == before + [ev];
      RunQueued(env, before);
      NextQueued(env, Run(env, FRESH, before), ev);
    }
  }

  // ---------------------------------------------------------------- decisions

  /** The entry was decided by the configured rules. */
  predicate DecidedBy(s: Settings, x: Entry) {
    x.decision == Decide(s, x.line, x.now, x.drawn).0
  }

  /** Some poll or shutdown of the run happened at `t`. */
  predicate TimeIn(evs: seq<Event>, t: int) {
    exists i :: 0 <= i < |evs| && (evs[i].Polled? || evs[i].ShutDown?) && evs[i].now == t
  }

  /** Every entry was decided by the configured rules, at the time of a poll or shutdown. */
  ghost predicate Decided(env: Env, log: seq<Entry>, evs: seq<Event>) {
    forall x | x in log :: DecidedBy(env.settings, x) && TimeIn(evs, x.now)
  }

  ghost predicate AllDecided(env: Env, st: AgentState, evs: seq<Event>) {
    Decided(env, st.log, evs) && forall d | d in st.trail :: Decided(env, d.log, evs)
  }

  lemma TakeDecided(env: Env, st: AgentState, line: FileLine, now: int, evs: seq<Event>)
    requires Decided(env, st.log, evs) && TimeIn(evs, now)
    ensures Decided(env, Record(env, st, line, now).log, evs)
    ensures Record(env, st, line, now).trail == st.trail
  {
    hide Decide, TimeIn;
    var s := Record(env, st, line, now);
    var y := s.log[|st.log|];
    assert s.log == st.log + [y];
    assert DecidedBy(env.settings, y);
    hide DecidedBy;
  }

  lemma DecidedClosed(env: Env, now: int, evs: seq<Event>)
    requires TimeIn(evs, now)
    ensures Closed(env, now, st => AllDecided(env, st, evs))
  {
    hide Decided, TimeIn;
    var I := st => AllDecided(env, st, evs);
    forall st, m | I(st) && Enabled(st, m) ensures I(Do(env, now, st, m)) {
      match m
      case Take(line) => TakeDecided(env, st, line, now, evs); hide Record;
      case Save => hide CommitAllowed, Candidate;
      case Put => hide Publish, NewBatchName;
      case Clear =>
      case Shift(_, _, _, _) =>
    }
  }

  /** A flush alone decides nothing. */
  lemma FlushDecided(env: Env, st: AgentState, evs: seq<Event>)
    requires AllDecided(env, st, evs)
    ensures AllDecided(env, FlushBatch(env, st).st, evs)
  {
    FlushTrail(env, st);
    FlushFrame(env, st);
    hide FlushBatch, Decided;
  }

  /** From `a` to `b` the durable moments added have the entries of `a`. */
  predicate SameLogTrail(a: AgentState, b: AgentState) {
    b.log == a.log && forall d | d in b.trail :: d in a.trail || d.log == a.log
  }

  lemma CommitTrail(env: Env, st: AgentState)
    ensures SameLogTrail(st, Commit(env, st).0)
  {
    hide CommitAllowed, Candidate, Unsaved;
  }

  lemma WriteTrail(env: Env, st: AgentState)
    ensures SameLogTrail(st, WritePending(env, st).0)
  {
    hide Publish, NewBatchName, Unsaved;
  }

  /** What a flush adds to the durable moments has the same entries. */
  lemma FlushTrail(env: Env, st: AgentState)
    ensures forall d | d in FlushBatch(env, st).st.trail :: d in st.trail || d.log == st.log
  {
    hide Commit, WritePending;
    CommitTrail(env, st);
    WriteTrail(env, st);
    CommitTrail(env, WritePending(env, st).0);
  }

  lemma NextDecided(env: Env, st: AgentState, ev: Event, evs: seq<Event>)
    requires AllDecided(env, st, evs) && (ev.Polled? || ev.ShutDown? ==> TimeIn(evs, ev.now))
    ensures AllDecided(env, Next(env, st, ev), evs)
  {
    hide Closed, Poll, FlushBatch, Agents.Flush, Apply, RecoverClaims, Decided, TimeIn;
    if ev.Polled? || ev.ShutDown? {
      DecidedClosed(env, TimeOf(ev), evs);
      var I := st => AllDecided(env, st, evs);
      assert I(st);
      EventKeeps(env, I, st, ev);
    } else if ev.Flushed? {
      FlushDecided(env, st, evs);
    } else if ev.Crashed? && ev.at < |st.trail| {
      assert st.trail[ev.at] in st.trail;
    }
  }

  lemma {:induction false} RunDecided(env: Env, evs: seq<Event>)
    ensures AllDecided(env, Run(env, FRESH, evs), evs)
  {
    hide Next;
    if evs != [] {
      var before := evs[..|evs| - 1];
      RunDecided(env, before);
      forall t | TimeIn(before, t) ensures TimeIn(evs, t) {
        var i :| 0 <= i < |before| && (before[i].Polled? || before[i].ShutDown?) && before[i].now == t;
        assert evs[i] == before[i];
      }
      MoreTimes(env, Run(env, FRESH, before), before, evs);
      NextDecided(env, Run(env, FRESH, before), evs[|evs| - 1], evs);
    }
  }

  lemma MoreTimes(env: Env, st: AgentState, before: seq<Event>, evs: seq<Event>)
    requires AllDecided(env, st, before) && forall t | TimeIn(before, t) :: TimeIn(evs, t)
    ensures AllDecided(env, st, evs)
  {
    hide DecidedBy, TimeIn;
  }

  // ---------------------------------------------------------------- from a line to its batch

  /** Record `k` of batch `b` is number `n` among the published records. */
  predicate Number(ps: seq<Publication>, b: nat, k: nat, n: nat) {
    b < |ps| && k < |ps[b].batch.records| && n == |Records(ps[..b])| + k
  }

  lemma {:induction false} NumberOf(ps: seq<Publication>, n: nat) returns (b: nat, k: nat)
    requires n < |Records(ps)|
    ensures Number(ps, b, k, n) && ps[b].batch.records[k] == Records(ps)[n]
  {
    var m := |ps| - 1;
    assert ps[..m] + [ps[m]] == ps;
    if n < |Records(ps[..m])| {
      b, k := NumberOf(ps[..m], n);
      assert ps[..m][..b] == ps[..b] && ps[..m][b] == ps[b];
    } else {
      b, k := m, n - |Records(ps[..m])|;
    }
  }

  /** Entry `i` is number |Of(..)| before it among those of its fate. */
  lemma {:induction false} OwnRecord(log: seq<Entry>, fates: seq<Fate>, i: nat)
    requires |log| == |fates| && i < |log| && log[i].decision.Keep?
    ensures var n := |Of(log[..i], fates[..i], fates[i])|;
            n < |Of(log, fates, fates[i])| && Of(log, fates, fates[i])[n] == log[i].decision.record
    decreases |log|
  {
    var m := |log| - 1;
    OfLast(log, fates, fates[i]);
    if i < m {
      assert log[..m][..i] == log[..i] && fates[..m][..i] == fates[..i];
      hide Of;
      OwnRecord(log[..m], fates[..m], i);
    } else {
      hide Of;
    }
  }

  /** Entry `i` holds the line of `p` ending at `e`; it was filtered, or its record is the dropped
      one with its number, or it is record `k` of batch `b`, the one with its number, and the batch is in exactly one
      place of the queue with its contents unchanged. */
  predicate Traced(st: AgentState, p: string, e: int, i: nat, b: nat, k: nat) {
    && |st.log| == |st.fates| && HeldBy(st.log, st.fates, SETTLED, p, e, i)
    && (st.fates[i] == NoRecord <==> !st.log[i].decision.Keep?)
    && (st.fates[i] == InQueue ==>
          && Number(st.disk.published, b, k, |Of(st.log[..i], st.fates[..i], InQueue)|)
          && st.disk.published[b].batch.records[k] == st.log[i].decision.record
          && Once(st.disk, st.disk.published[b].name, st.disk.published[b].batch))
    && (st.fates[i] == Dropped ==>
          var n := |Of(st.log[..i], st.fates[..i], Dropped)|;
          n < |st.dropped| && st.dropped[n] == st.log[i].decision.record)
  }

  /** Every complete line behind a committed offset can be followed to the place of its record:
      over all append-only runs with fresh batch names, failures and crashes, and any
      interleaving with the sender. */
  lemma LinesAreTraced(env: Env, W: World, evs: seq<Event>, p: string, e: int) returns (i: nat, b: nat, k: nat)
    requires ValidEnv(env) && AppendOnlyRun(env, FRESH, W, evs) && FreshNames(env) && ProperActs(evs)
    requires LineBreak(W(p), e) && e <= Get(Run(env, FRESH, evs).tailer.offsets, p)
    ensures var st := Run(env, FRESH, evs);
            && Traced(st, p, e, i, b, k)
            && EntryText(W(p), st.log[i].from, st.log[i].line) && DecidedBy(env.settings, st.log[i]) && TimeIn(evs, st.log[i].now)
  {
    hide Run, AppendOnlyRun, FreshNames, EntryText, Once, DecidedBy, Of, LineBreak, TimeIn, QueueOk, ProperActs, Records, Number;
    var st := Run(env, FRESH, evs);
    i := NoLossBehindOffset(env, W, evs, p, e);
    RunQueued(env, evs);
    RunDecided(env, evs);
    assert st.log[i] in st.log;
    b, k := 0, 0;
    if st.fates[i] == Dropped { OwnRecord(st.log, st.fates, i); }
    if st.fates[i] == InQueue {
      OwnRecord(st.log, st.fates, i);
      b, k := NumberOf(st.disk.published, |Of(st.log[..i], st.fates[..i], InQueue)|);
      NumberIs(st.disk.published, b, k, |Of(st.log[..i], st.fates[..i], InQueue)|);
      PublishedOnce(env, st, st.disk.published[b]);
    }
  }

  lemma NumberIs(ps: seq<Publication>, b: nat, k: nat, n: nat)
    requires Number(ps, b, k, n)
    ensures b < |ps| && k < |ps[b].batch.records|
  {
  }

  lemma PublishedOnce(env: Env, st: AgentState, pub: Publication)
    requires Queued(env, st) && pub in st.disk.published
    ensures Once(st.disk, pub.name, pub.batch)
  {
    hide Once, Book;
  }
}
