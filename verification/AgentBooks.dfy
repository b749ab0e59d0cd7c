/**
 The books of the agent over every run, whatever it reads and whatever fails:
 each record kept is published, dropped, lost in a crash or still in memory,
 exactly once and in order; what is dropped is what was taken in too late; and
 no record of a line behind a committed offset of a growing file is elsewhere.
 */
module AgentBooks {
  import opened Tailing
  import opened Schema
  import opened Names
  import opened Eviction
  import opened BatchStores
  import opened Processing
  import opened Agents
  import opened AgentSafety
  import opened AgentSteps
  import opened AgentRuns

  /** The records kept, in the order in which their lines were processed. */
  function Kept(log: seq<Entry>): seq<Log> {
    if log == [] then [] else Kept(log[..|log| - 1]) + KeptBy(log[|log| - 1].decision)
  }

  lemma KeptSnoc(log: seq<Entry>, x: Entry)
    ensures Kept(log + [x]) == Kept(log) + KeptBy(x.decision)
  {
    assert (log + [x])[..|log|] == log;
  }

  // ---------------------------------------------------------------- each record once

  /** The records of the batches published so far. */
  function Records(ps: seq<Publication>): seq<Log> {
    if ps == [] then [] else Records(ps[..|ps| - 1]) + ps[|ps| - 1].batch.records
  }

  lemma RecordsSnoc(ps: seq<Publication>, p: Publication)
    ensures Records(ps + [p]) == Records(ps) + p.batch.records
  {
    assert (ps + [p])[..|ps|] == ps;
  }

  lemma PublishRecords(d: Disk, maxBytes: int, records: seq<Log>, io: WriteIO)
    ensures Records(Publish(d, maxBytes, records, io).published)
         == Records(d.published) + if io.WriteDone? then records else []
  {
    if io.WriteDone? {
      var p := Publication(NewBatchName(io.now, io.random), Batch(records, io.size));
      RecordsSnoc(d.published, p);
    }
  }

  /** The records of the entries of fate `f`, in order. */
  function Of(log: seq<Entry>, fates: seq<Fate>, f: Fate): seq<Log>
    requires |log| == |fates|
  {
    if log == [] then []
    else
      var n := |log| - 1;
      Of(log[..n], fates[..n], f) + (if fates[n] == f then KeptBy(log[n].decision) else [])
  }

  /** Every entry has a fate: none for its record if it has none; and no record behind one in
      memory is elsewhere. */
  predicate Fated(log: seq<Entry>, fates: seq<Fate>) {
    && |log| == |fates|
    && (forall i | 0 <= i < |log| :: fates[i] == NoRecord <==> !log[i].decision.Keep?)
    && (forall i, j | 0 <= i < j < |log| && fates[i] == InMemory :: fates[j] == InMemory || fates[j] == NoRecord)
  }

  /** Entry by entry, the records of each fate are what is published, dropped, lost with a crash
      and in memory. */
  predicate Placed(log: seq<Entry>, fates: seq<Fate>, published: seq<Publication>,
                   dropped: seq<Log>, crashed: seq<Log>, unsaved: seq<Log>) {
    && Fated(log, fates)
    && Of(log, fates, InQueue) == Records(published) && Of(log, fates, Dropped) == dropped
    && Of(log, fates, Lost) == crashed && Of(log, fates, InMemory) == unsaved
  }

  predicate Balanced(st: AgentState) {
    Placed(st.log, st.fates, st.disk.published, st.dropped, st.crashed, Unsaved(st))
  }

  lemma {:induction false} NoneOf(log: seq<Entry>, fates: seq<Fate>, f: Fate)
    requires |log| == |fates| && forall i | 0 <= i < |fates| :: fates[i] != f
    ensures Of(log, fates, f) == []
  {
    if log != [] { NoneOf(log[..|log| - 1], fates[..|log| - 1], f); }
  }

  lemma FatedInit(log: seq<Entry>, fates: seq<Fate>)
    requires Fated(log, fates) && log != []
    ensures var n := |log| - 1;
            && |fates| == |log| && Fated(log[..n], fates[..n])
            && (fates[n] != InMemory && fates[n] != NoRecord ==> Of(log[..n], fates[..n], InMemory) == [])
            && (fates[n] == NoRecord ==> KeptBy(log[n].decision) == [])
  {
    var n := |log| - 1;
    assert forall i | 0 <= i < n :: fates[..n][i] == fates[i] && log[..n][i] == log[i];
    if fates[n] != InMemory && fates[n] != NoRecord { NoneOf(log[..n], fates[..n], InMemory); }
  }

  lemma OfSnoc(log: seq<Entry>, fates: seq<Fate>, x: Entry, f: Fate, g: Fate)
    requires |log| == |fates|
    ensures Of(log + [x], fates + [f], g) == Of(log, fates, g) + (if f == g then KeptBy(x.decision) else [])
  {
    hide KeptBy;
    assert (log + [x])[..|log|] == log && (fates + [f])[..|fates|] == fates;
  }

  lemma OfLast(log: seq<Entry>, fates: seq<Fate>, f: Fate)
    requires |log| == |fates| && log != []
    ensures var n := |log| - 1;
            Of(log, fates, f) == if fates[n] == f then Of(log[..n], fates[..n], f) + KeptBy(log[n].decision)
                                 else Of(log[..n], fates[..n], f)
  {
    hide KeptBy;
  }

  /** When the records in memory all go to one place, they join what is there, in order. */
  lemma {:induction false} OfMoved(log: seq<Entry>, fates: seq<Fate>, to: Fate, g: Fate)
    requires Fated(log, fates) && to != InMemory && to != NoRecord
    ensures Of(log, Moved(fates, to), g)
         == if g == to then Of(log, fates, to) + Of(log, fates, InMemory) else if g == InMemory then [] else Of(log, fates, g)
  {
    hide Of, Fated, KeptBy, Moved;
    if log == [] {
      assert Moved(fates, to) == [] && forall h :: Of([], [], h) == [] by { NothingOf(log, fates, to); }
    } else {
      var n := |log| - 1;
      FatedInit(log, fates);
      OfMoved(log[..n], fates[..n], to, g);
      MovedInit(fates, to);
      OfLast(log, Moved(fates, to), g);
      OfLast(log, fates, to);
      OfLast(log, fates, g);
      OfLast(log, fates, InMemory);
      MovedJoins(Of(log[..n], fates[..n], to), Of(log[..n], fates[..n], InMemory), KeptBy(log[n].decision));
    }
  }

  lemma NothingOf(log: seq<Entry>, fates: seq<Fate>, to: Fate)
    requires log == [] && Fated(log, fates)
    ensures fates == [] && Moved(fates, to) == [] && forall g :: Of([], [], g) == []
  {
  }

  lemma MovedInit(fates: seq<Fate>, to: Fate)
    requires fates != []
    ensures var n := |fates| - 1;
            Moved(fates, to)[..n] == Moved(fates[..n], to) && Moved(fates, to)[n] == if fates[n] == InMemory then to else fates[n]
  {
  }

  lemma MovedJoins(rest: seq<Log>, out: seq<Log>, last: seq<Log>)
    ensures (rest + out) + last == rest + (out + last)
    ensures out == [] ==> (rest + last) + out == (rest + out) + last
  {
  }

  lemma FatedMoved(log: seq<Entry>, fates: seq<Fate>, to: Fate)
    requires Fated(log, fates) && to != InMemory && to != NoRecord
    ensures Fated(log, Moved(fates, to))
  {
  }

  /** The records in memory go to a batch, are dropped, or are lost. */
  lemma PlacedMoves(log: seq<Entry>, fates: seq<Fate>, ps: seq<Publication>, ps2: seq<Publication>,
                    dropped: seq<Log>, crashed: seq<Log>, out: seq<Log>)
    requires Placed(log, fates, ps, dropped, crashed, out)
    ensures Records(ps2) == Records(ps) + out ==> Placed(log, Moved(fates, InQueue), ps2, dropped, crashed, [])
    ensures Placed(log, Moved(fates, Dropped), ps, dropped + out, crashed, [])
    ensures Placed(log, Moved(fates, Lost), ps, dropped, crashed + out, [])
  {
    forall to: Fate, g: Fate | to != InMemory && to != NoRecord
      ensures Fated(log, Moved(fates, to))
      ensures Of(log, Moved(fates, to), g)
           == if g == to then Of(log, fates, to) + Of(log, fates, InMemory) else if g == InMemory then [] else Of(log, fates, g)
    {
      FatedMoved(log, fates, to);
      OfMoved(log, fates, to, g);
    }
    hide Fated, Of, Records, Moved;
  }

  lemma FatedTakes(log: seq<Entry>, fates: seq<Fate>, x: Entry)
    requires Fated(log, fates)
    ensures Fated(log + [x], fates + [if x.decision.Keep? then InMemory else NoRecord])
  {
  }

  lemma PlacedTakes(log: seq<Entry>, fates: seq<Fate>, ps: seq<Publication>, dropped: seq<Log>, crashed: seq<Log>, out: seq<Log>,
                    x: Entry)
    requires Placed(log, fates, ps, dropped, crashed, out)
    ensures Placed(log + [x], fates + [if x.decision.Keep? then InMemory else NoRecord], ps, dropped, crashed,
                   out + KeptBy(x.decision))
  {
    var f := if x.decision.Keep? then InMemory else NoRecord;
    FatedTakes(log, fates, x);
    OfSnoc(log, fates, x, f, InQueue);
    OfSnoc(log, fates, x, f, Dropped);
    OfSnoc(log, fates, x, f, Lost);
    OfSnoc(log, fates, x, f, InMemory);
    hide Fated, Of, Records;
    assert out + [] == out;
  }

  /** What the last entry adds to the records of each fate. */
  lemma LastPlaced(log: seq<Entry>, fates: seq<Fate>)
    requires Fated(log, fates) && log != []
    ensures var n := |log| - 1;
            && |fates| == |log| && Fated(log[..n], fates[..n]) && Kept(log) == Kept(log[..n]) + KeptBy(log[n].decision)
            && (forall f :: Of(log, fates, f) == if fates[n] == f then Of(log[..n], fates[..n], f) + KeptBy(log[n].decision)
                                                 else Of(log[..n], fates[..n], f))
            && (fates[n] != InMemory && fates[n] != NoRecord ==> Of(log[..n], fates[..n], InMemory) == [])
            && (fates[n] == NoRecord ==> KeptBy(log[n].decision) == [])
  {
    hide Fated, Of, Kept, KeptBy;
    var n := |log| - 1;
    assert log[..n] + [log[n]] == log;
    FatedInit(log, fates);
    KeptSnoc(log[..n], log[n]);
    forall f
      ensures Of(log, fates, f) == if fates[n] == f then Of(log[..n], fates[..n], f) + KeptBy(log[n].decision)
                                   else Of(log[..n], fates[..n], f)
    {
      OfLast(log, fates, f);
    }
  }

  /** Each kept record has exactly one fate. */
  lemma {:induction false} KeptShared(log: seq<Entry>, fates: seq<Fate>)
    requires Fated(log, fates)
    ensures multiset(Kept(log)) == multiset(Of(log, fates, InQueue)) + multiset(Of(log, fates, Dropped))
                                   + multiset(Of(log, fates, Lost)) + multiset(Of(log, fates, InMemory))
  {
    hide Fated, Of, Kept, KeptBy;
    if log == [] {
      NothingOf(log, fates, Lost);
      NothingKept();
    } else {
      LastPlaced(log, fates);
      KeptShared(log[..|log| - 1], fates[..|log| - 1]);
    }
  }

  /** Without drops and crashes the order of the entries is the order of the records. */
  lemma {:induction false} KeptOrder(log: seq<Entry>, fates: seq<Fate>)
    requires Fated(log, fates) && Of(log, fates, Dropped) == [] && Of(log, fates, Lost) == []
    ensures Kept(log) == Of(log, fates, InQueue) + Of(log, fates, InMemory)
  {
    hide Fated, Of, Kept, KeptBy;
    if log == [] {
      NothingOf(log, fates, Lost);
      NothingKept();
    } else {
      var n := |log| - 1;
      LastPlaced(log, fates);
      KeptOrder(log[..n], fates[..n]);
      var kept, last := Kept(log[..n]), KeptBy(log[n].decision);
      assert last == [] ==> kept + last == kept;
      MovedJoins(Of(log[..n], fates[..n], InQueue), Of(log[..n], fates[..n], InMemory), last);
    }
  }

  lemma NothingKept()
    ensures Kept([]) == []
  {
  }

  /** Late records are dropped, lost with a crash or waiting; what a crash took is part of
      everything that crashes took. */
  predicate LateBalance(late: seq<Log>, dropped: seq<Log>, lost: seq<Log>, waiting: seq<Log>, crashed: seq<Log>) {
    && multiset(late) == multiset(dropped) + multiset(lost) + multiset(waiting)
    && (lost == [] ==> late == dropped + waiting)
    && multiset(lost) <= multiset(crashed)
  }

  predicate LateKnown(st: AgentState) {
    LateBalance(st.late, st.dropped, st.lateCrashed, Waiting(st), st.crashed)
  }

  predicate DurableBalanced(d: Durable) {
    && Placed(d.log, d.fates, d.disk.published, d.dropped, d.crashed, d.unsaved)
    && LateBalance(d.late, d.dropped, d.lateCrashed, d.waiting, d.crashed)
    && (d.waiting == [] || d.waiting == d.unsaved)
  }

  predicate TrailBalanced(trail: seq<Durable>) {
    forall d | d in trail :: DurableBalanced(d)
  }

  predicate Books(st: AgentState) {
    Batched(st) && Balanced(st) && TrailBalanced(st.trail) && LateKnown(st)
  }

  /** The late records when more come in, when those waiting are dropped, and when a crash takes
      what is in memory. */
  lemma LateMoves(late: seq<Log>, dropped: seq<Log>, lost: seq<Log>, waiting: seq<Log>, crashed: seq<Log>, more: seq<Log>)
    requires LateBalance(late, dropped, lost, waiting, crashed)
    ensures LateBalance(late + more, dropped, lost, waiting + more, crashed)
    ensures LateBalance(late, dropped + waiting, lost, [], crashed)
  {
    assert dropped + (waiting + more) == (dropped + waiting) + more;
    assert (dropped + waiting) + [] == dropped + waiting;
  }

  lemma LateCrashes(late: seq<Log>, dropped: seq<Log>, lost: seq<Log>, waiting: seq<Log>, crashed: seq<Log>, memory: seq<Log>)
    requires LateBalance(late, dropped, lost, waiting, crashed) && (waiting == [] || waiting == memory)
    ensures LateBalance(late, dropped, lost + waiting, [], crashed + memory)
  {
    assert lost + waiting == [] ==> lost == [] && waiting == [];
    assert dropped + [] == dropped;
    assert multiset(waiting) <= multiset(memory);
  }

  lemma TakeLate(env: Env, st: AgentState, line: FileLine, now: int)
    requires Batched(st) && LateKnown(st)
    ensures LateKnown(Record(env, st, line, now))
  {
    hide Record, Taken, Unsaved, KeptBy, Batched, LateBalance;
    RecordIs(env, st, line, now);
    var more := if st.pendingBatch == "" then [] else KeptBy(Taken(env, st, line, now));
    LateMoves(st.late, st.dropped, st.lateCrashed, Waiting(st), st.crashed, more);
    assert Waiting(st) + [] == Waiting(st);
  }

  lemma TakeBalanced(env: Env, st: AgentState, line: FileLine, now: int)
    requires Batched(st) && Balanced(st)
    ensures Balanced(Record(env, st, line, now)) && Batched(Record(env, st, line, now))
  {
    RecordIs(env, st, line, now);
    var d := Taken(env, st, line, now);
    PlacedTakes(st.log, st.fates, st.disk.published, st.dropped, st.crashed, Unsaved(st),
                Entry(Done(st, line.path), line, now, st.drawn, d));
    hide Record, Taken, Placed, Unsaved, KeptBy;
    assert line.path in Record(env, st, line, now).batchOffsets;
  }

  lemma TakeBooks(env: Env, st: AgentState, line: FileLine, now: int)
    requires Books(st)
    ensures Books(Record(env, st, line, now))
  {
    TakeLate(env, st, line, now);
    TakeBalanced(env, st, line, now);
    RecordIs(env, st, line, now);
    hide Record, Taken, Balanced, LateKnown, Batched, TrailBalanced, Unsaved, KeptBy;
  }

  lemma SnapshotBalanced(st: AgentState)
    requires Balanced(st) && LateKnown(st)
    ensures DurableBalanced(Snapshot(st))
  {
    hide Placed, LateBalance, Unsaved;
  }

  lemma TrailGrows(trail: seq<Durable>, d: Durable)
    requires TrailBalanced(trail) && DurableBalanced(d)
    ensures TrailBalanced(trail + [d])
  {
    hide DurableBalanced;
  }

  lemma MarkBooks(st: AgentState)
    requires Books(st)
    ensures Books(Mark(st))
  {
    SnapshotBalanced(st);
    hide Placed, LateBalance, DurableBalanced, Snapshot;
    var s := Mark(st);
    assert Unsaved(s) == Unsaved(st) && Waiting(s) == Waiting(st);
    TrailGrows(st.trail, Snapshot(st));
    hide Unsaved, Waiting, TrailBalanced;
  }

  lemma SavedBooks(st: AgentState)
    requires Books(st) && (st.batch == [] || st.pendingBatch != "") && CommitAllowed(st.tailer, st.batchOffsets)
    ensures Books(AgentSafety.Saved(st))
  {
    hide Placed, LateBalance, Candidate, TrailBalanced, CommitAllowed;
    var s := AgentSafety.Saved(st);
    assert st.batch == [] ==> Unsaved(st) == [] == Waiting(st);
    assert Waiting(st) == Unsaved(st) && Unsaved(s) == [] == Waiting(s);
    PlacedMoves(st.log, st.fates, st.disk.published, [], st.dropped, st.crashed, Unsaved(st));
    LateMoves(st.late, st.dropped, st.lateCrashed, Waiting(st), st.crashed, []);
  }

  /** A step that touches no record. */
  predicate SameRecords(a: AgentState, b: AgentState) {
    && b.log == a.log && b.fates == a.fates && b.disk.published == a.disk.published && b.dropped == a.dropped && b.crashed == a.crashed
    && b.late == a.late && b.lateCrashed == a.lateCrashed && b.trail == a.trail
    && b.batch == a.batch && b.written == a.written && b.pendingBatch == a.pendingBatch
    && (a.batchOffsets != map[] ==> b.batchOffsets != map[])
  }

  lemma SameBooks(a: AgentState, b: AgentState)
    requires Books(a) && SameRecords(a, b)
    ensures Books(b)
  {
    hide Placed, LateBalance, TrailBalanced;
    assert Unsaved(b) == Unsaved(a) && Waiting(b) == Waiting(a);
  }

  lemma SaveIsOne(env: Env, st: AgentState)
    ensures SameRecords(st, Commit(env, st).0)
         || (CommitAllowed(st.tailer, st.batchOffsets) && Commit(env, st).0 == Mark(AgentSafety.Saved(st)))
  {
    hide Candidate, Mark, CommitAllowed, Unsaved;
  }

  lemma SaveBooks(env: Env, st: AgentState)
    requires Books(st) && (st.batch == [] || st.pendingBatch != "")
    ensures Books(Commit(env, st).0)
  {
    SaveIsOne(env, st);
    hide Books, Mark, CommitAllowed, AgentSafety.Saved, Commit, SameRecords;
    if SameRecords(st, Commit(env, st).0) {
      SameBooks(st, Commit(env, st).0);
    } else {
      SavedBooks(st);
      MarkBooks(AgentSafety.Saved(st));
    }
  }

  lemma PublishedBooks(env: Env, st: AgentState)
    requires Books(st) && st.batch != [] && st.pendingBatch == "" && env.write(st.writes).WriteDone?
    ensures Books(AgentSafety.Published(env, st))
  {
    hide Placed, LateBalance, Publish, NewBatchName, Records, TrailBalanced;
    var s := AgentSafety.Published(env, st);
    PublishRecords(st.disk, env.maxBytes, st.batch, env.write(st.writes));
    assert Unsaved(st) == st.batch && Unsaved(s) == [] && Waiting(s) == [] == Waiting(st);
    BatchStores.NewNameEnds(env.write(st.writes));
    PlacedMoves(st.log, st.fates, st.disk.published, s.disk.published, st.dropped, st.crashed, Unsaved(st));
  }

  lemma FailedWrite(env: Env, st: AgentState)
    requires env.write(st.writes).WriteFailed?
    ensures AgentSafety.Published(env, st).disk == st.disk && SameRecords(st, AgentSafety.Published(env, st))
  {
  }

  lemma PutBooks(env: Env, st: AgentState)
    requires Books(st) && st.batch != [] && st.pendingBatch == ""
    ensures Books(WritePending(env, st).0)
  {
    hide Books, Mark, WritePending, AgentSafety.Published, SameRecords;
    WriteIs(env, st);
    var s := AgentSafety.Published(env, st);
    if env.write(st.writes).WriteDone? {
      PublishedBooks(env, st);
      MarkBooks(s);
    } else {
      FailedWrite(env, st);
      SameBooks(st, s);
    }
  }

  lemma ClearBooks(st: AgentState)
    requires Books(st) && st.batchOffsets == map[]
    ensures Books(st.(batch := [], pendingBatch := "", written := 0))
  {
    hide Placed, LateBalance, TrailBalanced;
    var s := st.(batch := [], pendingBatch := "", written := 0);
    assert Unsaved(st) == [] == Unsaved(s) && Waiting(st) == [] == Waiting(s);
  }

  lemma BooksClosed(env: Env, now: int)
    ensures Closed(env, now, Books)
  {
    hide Books;
    forall st, m | Books(st) && Enabled(st, m) ensures Books(Do(env, now, st, m)) {
      match m
      case Take(line) => hide Record; TakeBooks(env, st, line, now);
      case Save => hide Commit; SaveBooks(env, st);
      case Put => hide WritePending; PutBooks(env, st);
      case Clear => ClearBooks(st);
      case Shift(_, _, _, _) => SameBooks(st, Do(env, now, st, m));
    }
  }

  lemma BootBooks(st: AgentState, d: Durable, stuck: set<string>, nanos: nat)
    requires DurableBalanced(d)
    ensures Books(Boot(st, d, stuck, nanos))
  {
    hide Placed, LateBalance, RecoverAll;
    RecoverHistory(d.disk, Claims(d.disk.directory), stuck, nanos);
    PlacedMoves(d.log, d.fates, d.disk.published, [], d.dropped, d.crashed, d.unsaved);
    LateCrashes(d.late, d.dropped, d.lateCrashed, d.waiting, d.crashed, d.unsaved);
    var s := Boot(st, d, stuck, nanos);
    assert Unsaved(s) == [] == Waiting(s);
  }

  lemma ActBooks(env: Env, st: AgentState, op: DiskOp)
    requires Books(st) && !op.Write?
    ensures Books(Mark(st.(disk := Apply(st.disk, env.maxBytes, op))))
  {
    hide Books, Apply, Mark;
    OpPublished(st.disk, env.maxBytes, op);
    var s := st.(disk := Apply(st.disk, env.maxBytes, op));
    SameBooks(st, s);
    MarkBooks(s);
  }

  lemma NextBooks(env: Env, st: AgentState, ev: Event)
    requires Books(st)
    ensures Books(Next(env, st, ev))
  {
    hide Closed, Boot, Apply, Books, DurableBalanced, Poll, FlushBatch, Agents.Flush, Mark, Drain;
    match ev
    case Polled(_, _) => BooksClosed(env, TimeOf(ev)); EventKeeps(env, Books, st, ev);
    case Flushed => BooksClosed(env, TimeOf(ev)); EventKeeps(env, Books, st, ev);
    case ShutDown(_) => BooksClosed(env, TimeOf(ev)); EventKeeps(env, Books, st, ev);
    case Drained => DrainBooks(st);
    case SenderActs(op) => if !op.Write? { ActBooks(env, st, op); }
    case Crashed(at, stuck, nanos) =>
      BooksTrail(st);
      if at < |st.trail| { BootBooks(st, st.trail[at], stuck, nanos); }
  }

  lemma DrainBooks(st: AgentState)
    requires Books(st)
    ensures Books(Drain(st))
  {
    hide Books;
    SameBooks(st, Drain(st));
  }

  lemma BooksTrail(st: AgentState)
    requires Books(st)
    ensures forall i | 0 <= i < |st.trail| :: DurableBalanced(st.trail[i])
  {
  }

  lemma {:induction false} RunBooks(env: Env, evs: seq<Event>)
    ensures Books(Run(env, FRESH, evs))
  {
    hide Next;
    if evs == [] {
      assert Unsaved(FRESH) == [];
    } else {
      hide Books;
      RunBooks(env, evs[..|evs| - 1]);
      NextBooks(env, Run(env, FRESH, evs[..|evs| - 1]), evs[|evs| - 1]);
    }
  }

  /** Conservation over every run, with shrinking files, failing writes and saves, crashes and
      evictions: every record kept is published, dropped, lost with the memory of a crash, or
      in the unwritten batch, exactly once: the entries of each of these fates are, one by one
      and in order, the records that are there. Without drops and crashes the published records
      are the kept ones in the order of processing. */
  lemma EachRecordOnce(env: Env, evs: seq<Event>)
    ensures var st := Run(env, FRESH, evs);
            && Placed(st.log, st.fates, st.disk.published, st.dropped, st.crashed, Unsaved(st))
            && multiset(Kept(st.log)) == multiset(Records(st.disk.published)) + multiset(st.dropped)
                                         + multiset(st.crashed) + multiset(Unsaved(st))
            && (st.dropped == [] && st.crashed == [] ==> Kept(st.log) == Records(st.disk.published) + Unsaved(st))
  {
    RunBooks(env, evs);
    var st := Run(env, FRESH, evs);
    KeptShared(st.log, st.fates);
    if st.dropped == [] && st.crashed == [] { KeptOrder(st.log, st.fates); }
    hide Run, Fated, Of, Kept, Records, Unsaved;
  }

  /** No loss behind the offset: in every run over append-only files, with writes, saves and
      crashes as they come, each complete line at or before a committed offset is held by an
      entry made of exactly the file's lines; and this entry was filtered, or its record was
      dropped as told in `late`, or it is a record of a published batch, each entry's own; and
      what is still held back lies behind the offset. */
  lemma NoLossBehindOffset(env: Env, W: World, evs: seq<Event>, p: string, e: int) returns (i: nat)
    requires ValidEnv(env) && AppendOnlyRun(env, FRESH, W, evs)
    requires var st := Run(env, FRESH, evs);
             LineBreak(W(p), e) && e <= Get(st.tailer.offsets, p)
    ensures var st := Run(env, FRESH, evs);
            && HeldBy(st.log, st.fates, SETTLED, p, e, i) && EntryText(W(p), st.log[i].from, st.log[i].line)
            && Placed(st.log, st.fates, st.disk.published, st.dropped, st.crashed, Unsaved(st))
            && (p in st.stacks.pending ==>
                  && Get(st.tailer.offsets, p) < st.stacks.pending[p].endOffset
                  && EntryText(W(p), Done(st, p), st.stacks.pending[p]))
  {
    hide Run, AppendOnlyRun, EntryText, LineBreak, Placed;
    SettledBehindOffset(env, W, evs, p, e);
    EachRecordOnce(env, evs);
    var st := Run(env, FRESH, evs);
    i :| HeldBy(st.log, st.fates, SETTLED, p, e, i);
    assert st.log[i] in st.log;
  }

  /** What is dropped is what was taken in while a batch file was waiting for its commit: over
      every run the late records are exactly the dropped ones, those that a crash took and those
      that wait still, and without late records lost in a crash in this very order. */
  lemma DroppedAreLate(env: Env, evs: seq<Event>)
    ensures var st := Run(env, FRESH, evs);
            && multiset(st.late) == multiset(st.dropped) + multiset(st.lateCrashed) + multiset(Waiting(st))
            && multiset(st.lateCrashed) <= multiset(st.crashed)
            && (st.lateCrashed == [] ==> st.late == st.dropped + Waiting(st))
            && (st.dropped == [] <==> multiset(st.late) == multiset(st.lateCrashed) + multiset(Waiting(st)))
  {
    RunBooks(env, evs);
    hide Run, Placed, Unsaved, Batched, TrailBalanced, Waiting;
    var st := Run(env, FRESH, evs);
    NoneLeft(st.dropped, multiset(st.lateCrashed) + multiset(Waiting(st)));
  }

  lemma NoneLeft(a: seq<Log>, m: multiset<Log>)
    ensures multiset(a) + m == m <==> a == []
  {
    if a != [] { assert (multiset(a) + m)[a[0]] > m[a[0]]; }
  }

  // ---------------------------------------------------------------- the filter counters

  /** How many entries were decided in the same way as `d`. */
  function CountOf(log: seq<Entry>, d: Decision): nat {
    if log == [] then 0 else CountOf(log[..|log| - 1], d) + (if log[|log| - 1].decision == d then 1 else 0)
  }

  predicate Counted(st: AgentState) {
    && st.filteredByLevel + st.drainedByLevel == CountOf(st.log, FilteredByLevel)
    && st.filteredBySampling + st.drainedBySampling == CountOf(st.log, FilteredBySampling)
    && |Kept(st.log)| + CountOf(st.log, FilteredByLevel) + CountOf(st.log, FilteredBySampling) == |st.log|
  }

  lemma CountSnoc(log: seq<Entry>, x: Entry)
    ensures CountOf(log + [x], FilteredByLevel) == CountOf(log, FilteredByLevel) + (if x.decision == FilteredByLevel then 1 else 0)
    ensures CountOf(log + [x], FilteredBySampling) == CountOf(log, FilteredBySampling) + (if x.decision == FilteredBySampling then 1 else 0)
    ensures |Kept(log + [x])| == |Kept(log)| + (if x.decision.Keep? then 1 else 0)
  {
    assert (log + [x])[..|log|] == log;
  }

  lemma TakeCounts(env: Env, st: AgentState, line: FileLine, now: int)
    ensures var s := Record(env, st, line, now);
            exists x: Entry :: s.log == st.log + [x]
              && s.filteredByLevel == st.filteredByLevel + (if x.decision == FilteredByLevel then 1 else 0)
              && s.filteredBySampling == st.filteredBySampling + (if x.decision == FilteredBySampling then 1 else 0)
              && s.drainedByLevel == st.drainedByLevel && s.drainedBySampling == st.drainedBySampling
  {
    hide Decide, Agents.Done;
    var s := Record(env, st, line, now);
    assert s.log == st.log + [s.log[|st.log|]];
  }

  lemma TakeCounted(env: Env, st: AgentState, line: FileLine, now: int)
    requires Counted(st)
    ensures Counted(Record(env, st, line, now))
  {
    TakeCounts(env, st, line, now);
    hide Record, Kept, CountOf;
    var s := Record(env, st, line, now);
    var x: Entry :| s.log == st.log + [x]
      && s.filteredByLevel == st.filteredByLevel + (if x.decision == FilteredByLevel then 1 else 0)
      && s.filteredBySampling == st.filteredBySampling + (if x.decision == FilteredBySampling then 1 else 0);
    CountSnoc(st.log, x);
  }

  /** A step that touches neither entries nor counters. */
  predicate SameCounts(a: AgentState, b: AgentState) {
    && b.log == a.log && b.filteredByLevel == a.filteredByLevel && b.filteredBySampling == a.filteredBySampling
    && b.drainedByLevel == a.drainedByLevel && b.drainedBySampling == a.drainedBySampling
  }

  lemma OtherCounts(env: Env, now: int, st: AgentState, m: Micro)
    requires !m.Take?
    ensures SameCounts(st, Do(env, now, st, m))
  {
    hide CommitAllowed, Candidate, Publish, NewBatchName, Unsaved, Snapshot;
  }

  lemma CountedClosed(env: Env, now: int)
    ensures Closed(env, now, Counted)
  {
    hide Kept, CountOf, Record, Commit, WritePending;
    forall st, m | Counted(st) && Enabled(st, m) ensures Counted(Do(env, now, st, m)) {
      if m.Take? { TakeCounted(env, st, m.line, now); } else { OtherCounts(env, now, st, m); }
    }
  }

  predicate CrashFree(evs: seq<Event>) {
    forall i | 0 <= i < |evs| :: !evs[i].Crashed?
  }

  lemma {:induction false} RunCounted(env: Env, evs: seq<Event>)
    requires CrashFree(evs)
    ensures Counted(Run(env, FRESH, evs))
  {
    if evs != [] {
      var st, ev := Run(env, FRESH, evs[..|evs| - 1]), evs[|evs| - 1];
      RunCounted(env, evs[..|evs| - 1]);
      CountedClosed(env, TimeOf(ev));
      hide Closed, Poll, FlushBatch, Agents.Flush, Apply, Kept, CountOf;
      if ev.Polled? || ev.Flushed? || ev.ShutDown? { EventKeeps(env, Counted, st, ev); }
    }
  }

  /** Without crashes the filter counters, those drained so far and those yet to be drained, say
      how many entries were filtered for either reason, and every other entry was kept. */
  lemma CountersMatch(env: Env, evs: seq<Event>)
    requires CrashFree(evs)
    ensures var st := Run(env, FRESH, evs);
            && st.filteredByLevel + st.drainedByLevel == CountOf(st.log, FilteredByLevel)
            && st.filteredBySampling + st.drainedBySampling == CountOf(st.log, FilteredBySampling)
            && |Kept(st.log)| + CountOf(st.log, FilteredByLevel) + CountOf(st.log, FilteredBySampling) == |st.log|
  {
    RunCounted(env, evs);
  }
}
