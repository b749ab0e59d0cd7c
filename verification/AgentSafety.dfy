/**
 Nothing is lost behind a committed offset. For append-only files, every
 complete line at or before an offset that is durable was filtered, or its
 record is in a published batch or known to be dropped, after every step of the
 agent.

 `W` gives each file's eventual content; what a poll sees is a prefix of it.
 */
module AgentSafety {
  import opened Tailing
  import opened Stacks
  import opened Schema
  import opened Names
  import opened Eviction
  import opened BatchStores
  import opened Processing
  import opened Agents

  type World = string -> string

  // ---------------------------------------------------------------- what has been settled

  /** A complete line of `w` ends at `e`. */
  predicate LineBreak(w: string, e: int) {
    0 < e <= |w| && w[e - 1] == '\n'
  }

  /** The entry `x` holds the line of `p` ending at `e`. */
  predicate Holds(x: Entry, p: string, e: int) {
    x.line.path == p && x.from < e <= x.line.endOffset
  }

  /** Filtered, in a published batch, or dropped. */
  const SETTLED := {NoRecord, InQueue, Dropped}
  const PROCESSED := {NoRecord, InQueue, Dropped, InMemory}

  /** Entry `i` holds the line of `p` ending at `e`, and its record is in one of `places`. */
  predicate HeldBy(log: seq<Entry>, fates: seq<Fate>, places: set<Fate>, p: string, e: int, i: nat) {
    i < |log| && i < |fates| && Holds(log[i], p, e) && fates[i] in places
  }

  ghost predicate Settled(log: seq<Entry>, fates: seq<Fate>, places: set<Fate>, p: string, e: int) {
    exists i: nat :: HeldBy(log, fates, places, p, e, i)
  }

  ghost predicate CoveredTo(log: seq<Entry>, fates: seq<Fate>, places: set<Fate>, w: string, p: string, n: int) {
    forall e | 0 < e <= n && LineBreak(w, e) :: Settled(log, fates, places, p, e)
  }

  /** Every entry whose record is in one of `places` is there still, and its record in one of `places2`. */
  predicate Remain(log: seq<Entry>, fates: seq<Fate>, places: set<Fate>, log2: seq<Entry>, fates2: seq<Fate>, places2: set<Fate>) {
    forall i: nat | i < |log| && i < |fates| && fates[i] in places ::
      i < |log2| && i < |fates2| && log2[i] == log[i] && fates2[i] in places2
  }

  lemma CoveredMore(log: seq<Entry>, fates: seq<Fate>, places: set<Fate>,
                    log2: seq<Entry>, fates2: seq<Fate>, places2: set<Fate>, w: string, p: string, n: int)
    requires CoveredTo(log, fates, places, w, p, n) && Remain(log, fates, places, log2, fates2, places2)
    ensures CoveredTo(log2, fates2, places2, w, p, n)
  {
    forall e | 0 < e <= n && LineBreak(w, e) ensures Settled(log2, fates2, places2, p, e) {
      assert Settled(log, fates, places, p, e);
      var i: nat :| HeldBy(log, fates, places, p, e, i);
      assert HeldBy(log2, fates2, places2, p, e, i);
    }
  }

  /** One more entry covers its file up to the end of the entry. */
  lemma CoveredStep(log: seq<Entry>, fates: seq<Fate>, places: set<Fate>, x: Entry, f: Fate, w: string, p: string, n: int, m: int)
    requires CoveredTo(log, fates, places, w, p, n) && |log| == |fates|
    requires m <= n || (x.line.path == p && x.from <= n && x.line.endOffset == m && f in places)
    ensures CoveredTo(log + [x], fates + [f], places, w, p, m)
  {
    CoveredMore(log, fates, places, log + [x], fates + [f], places, w, p, n);
    forall e | 0 < e <= m && LineBreak(w, e) ensures Settled(log + [x], fates + [f], places, p, e) {
      if e > n { assert HeldBy(log + [x], fates + [f], places, p, e, |log|); }
    }
  }

  // ---------------------------------------------------------------- the invariant

  /** `line` is an entry made of exactly the complete lines of `w` in (from, endOffset]. */
  predicate EntryText(w: string, from: int, line: FileLine) {
    && 0 <= from < line.endOffset <= |w| && Boundary(w, from) && Boundary(w, line.endOffset)
    && "\n" + line.text == Join(Between(line.path, w, from, line.endOffset))
  }

  ghost predicate LogOk(log: seq<Entry>, W: World) {
    forall x | x in log :: EntryText(W(x.line.path), x.from, x.line)
  }

  function FedTo(st: AgentState, p: string, m: int): int {
    if p in st.stacks.pending then st.stacks.pending[p].endOffset else m
  }

  /** File `p`: processed, handed to the assembler and read, in this order, all on line
      boundaries; the held-back entry lies behind `m`, and `rest` is what is still to feed. */
  predicate At(st: AgentState, w: string, p: string, m: int, rest: seq<FileLine>) {
    var fed, read := FedTo(st, p, m), Get(st.tailer.readOffsets, p);
    && 0 <= m <= fed <= read <= |w|
    && Boundary(w, m) && Boundary(w, fed) && Boundary(w, read)
    && (p in st.batchOffsets ==> p in st.tailer.readOffsets)
    && (p in st.stacks.pending ==> st.stacks.pending[p].path == p && EntryText(w, m, st.stacks.pending[p]))
    && rest == Between(p, w, fed, read)
  }

  /** And what has been committed is a line boundary at or below what has been processed, and
      the same where no safe offset waits. */
  predicate PathSound(st: AgentState, w: string, p: string, m: int, rest: seq<FileLine>) {
    && At(st, w, p, m, rest)
    && Get(st.tailer.offsets, p) <= Done(st, p) <= m && Boundary(w, Get(st.tailer.offsets, p))
    && (p !in st.batchOffsets ==> Done(st, p) == Get(st.tailer.offsets, p))
  }

  ghost predicate Steady(st: AgentState, W: World, queue: seq<FileLine>) {
    forall p :: PathSound(st, W(p), p, Done(st, p), ForPath(queue, p))
  }

  predicate Batched(st: AgentState) {
    && st.written <= |st.batch|
    && (st.pendingBatch == "" ==> st.written == 0)
    && (st.batch == [] ==> st.pendingBatch == "")
    && (Unsaved(st) != [] ==> st.batchOffsets != map[])
  }

  ghost predicate Covered(st: AgentState, W: World) {
    forall p ::
      && CoveredTo(st.log, st.fates, SETTLED, W(p), p, Get(st.tailer.offsets, p))
      && CoveredTo(st.log, st.fates, PROCESSED, W(p), p, Done(st, p))
  }

  /** No loss behind a durable offset, and a restart begins on a line boundary. */
  ghost predicate Safe(d: Durable, W: World) {
    && |d.log| == |d.fates| && LogOk(d.log, W)
    && (forall p :: Get(d.offsets, p) <= |W(p)| && Boundary(W(p), Get(d.offsets, p)))
    && (forall p :: CoveredTo(d.log, d.fates, SETTLED, W(p), p, Get(d.offsets, p)))
  }

  ghost predicate TrailSafe(trail: seq<Durable>, W: World) {
    trail != [] && forall d | d in trail :: Safe(d, W)
  }

  /** What has been dropped by an earlier durable state is still counted as dropped. */
  predicate TrailSpared(trail: seq<Durable>, dropped: seq<Log>) {
    dropped == [] ==> forall d | d in trail :: d.dropped == []
  }

  /** Everything but the positions of the files. */
  ghost predicate Ledger(st: AgentState, W: World) {
    && Batched(st) && |st.log| == |st.fates| && LogOk(st.log, W) && Covered(st, W) && st.refused == 0
    && TrailSafe(st.trail, W) && TrailSpared(st.trail, st.dropped)
  }

  ghost predicate Sound(st: AgentState, W: World, queue: seq<FileLine>) {
    Ledger(st, W) && Steady(st, W, queue)
  }

  /** Every save of the offsets succeeds. */
  ghost predicate AlwaysSaves(env: Env) {
    forall k :: env.saveOk(k)
  }

  /** No batch file is waiting for its commit, and nothing has been dropped. */
  predicate Calm(st: AgentState) {
    st.pendingBatch == "" && st.dropped == []
  }

  // ---------------------------------------------------------------- durable effects

  lemma MarkSteady(st: AgentState, W: World, queue: seq<FileLine>)
    requires Steady(st, W, queue)
    ensures Steady(Mark(st), W, queue)
  {
    forall p ensures PathSound(Mark(st), W(p), p, Done(Mark(st), p), ForPath(queue, p)) {
      assert PathSound(st, W(p), p, Done(st, p), ForPath(queue, p));
    }
  }

  lemma MarkCovered(st: AgentState, W: World)
    requires Covered(st, W)
    ensures Covered(Mark(st), W)
  {
    hide CoveredTo;
  }

  lemma SnapshotSafe(st: AgentState, W: World, queue: seq<FileLine>)
    requires |st.log| == |st.fates| && LogOk(st.log, W) && Covered(st, W) && Steady(st, W, queue)
    ensures Safe(Snapshot(st), W)
  {
    hide CoveredTo;
    forall p ensures Get(st.tailer.offsets, p) <= |W(p)| && Boundary(W(p), Get(st.tailer.offsets, p)) {
      assert PathSound(st, W(p), p, Done(st, p), ForPath(queue, p));
    }
  }

  /** Noting what is durable keeps everything. */
  lemma MarkSound(st: AgentState, W: World, queue: seq<FileLine>)
    requires Sound(st, W, queue)
    ensures Sound(Mark(st), W, queue)
  {
    SnapshotSafe(st, W, queue);
    MarkSteady(st, W, queue);
    MarkCovered(st, W);
    hide Covered, Steady, Safe, LogOk;
    forall d | d in Mark(st).trail ensures Safe(d, W) {
      if d !in st.trail { assert d == Snapshot(st); }
    }
  }

  /** In an append-only run a commit is never refused, and it moves every committed offset
      to what has been processed. */
  lemma CommitMoves(st: AgentState, W: World, queue: seq<FileLine>, p: string)
    requires Steady(st, W, queue)
    ensures CommitAllowed(st.tailer, st.batchOffsets)
    ensures Get(Candidate(st.tailer, st.batchOffsets), p) == Done(st, p)
  {
    forall q | q in st.batchOffsets
      ensures q in st.tailer.readOffsets && 0 <= st.batchOffsets[q] <= st.tailer.readOffsets[q]
    {
      assert PathSound(st, W(q), q, Done(st, q), ForPath(queue, q));
    }
    assert PathSound(st, W(p), p, Done(st, p), ForPath(queue, p));
    CommitMeaning(st.tailer, st.batchOffsets, p);
  }

  /** The state when a save of the offsets has succeeded, before it is marked. */
  function Saved(st: AgentState): AgentState
    requires CommitAllowed(st.tailer, st.batchOffsets)
  {
    Forgotten(st.(tailer := st.tailer.(offsets := Candidate(st.tailer, st.batchOffsets)), saves := st.saves + 1))
  }

  /** A commit moves no file's processed offset, whatever the files do. */
  lemma DoneSaved(st: AgentState, p: string)
    requires CommitAllowed(st.tailer, st.batchOffsets)
    ensures Done(Saved(st), p) == Done(st, p)
  {
    CommitMeaning(st.tailer, st.batchOffsets, p);
    hide Candidate, CommitAllowed;
  }

  lemma SavedSteady(st: AgentState, W: World, queue: seq<FileLine>)
    requires Steady(st, W, queue)
    ensures CommitAllowed(st.tailer, st.batchOffsets) && Steady(Saved(st), W, queue)
  {
    CommitMoves(st, W, queue, "");
    var s := Saved(st);
    forall p ensures PathSound(s, W(p), p, Done(s, p), ForPath(queue, p)) {
      CommitMoves(st, W, queue, p);
      DoneSaved(st, p);
      assert PathSound(st, W(p), p, Done(st, p), ForPath(queue, p));
      hide EntryText, Between, Boundary, Done;
    }
  }

  lemma SavedCovered(st: AgentState, W: World, queue: seq<FileLine>)
    requires Steady(st, W, queue) && Covered(st, W) && CommitAllowed(st.tailer, st.batchOffsets)
    ensures Covered(Saved(st), W)
  {
    var s := Saved(st);
    hide CoveredTo, Done;
    forall p
      ensures CoveredTo(s.log, s.fates, SETTLED, W(p), p, Get(s.tailer.offsets, p))
      ensures CoveredTo(s.log, s.fates, PROCESSED, W(p), p, Done(s, p))
    {
      CommitMoves(st, W, queue, p);
      DoneSaved(st, p);
      CoveredMore(st.log, st.fates, PROCESSED, s.log, s.fates, SETTLED, W(p), p, Done(st, p));
      CoveredMore(st.log, st.fates, PROCESSED, s.log, s.fates, PROCESSED, W(p), p, Done(st, p));
    }
  }

  lemma SavedSound(st: AgentState, W: World, queue: seq<FileLine>)
    requires Sound(st, W, queue) && (st.batch == [] || st.pendingBatch != "")
    ensures CommitAllowed(st.tailer, st.batchOffsets) && Sound(Saved(st), W, queue) && Unsaved(Saved(st)) == []
  {
    SavedSteady(st, W, queue);
    SavedCovered(st, W, queue);
    hide Covered, Steady, TrailSafe, LogOk;
    assert st.batch[|st.batch|..] == [];
  }

  lemma SavesSound(st: AgentState, W: World, queue: seq<FileLine>)
    requires Sound(st, W, queue)
    ensures Sound(st.(saves := st.saves + 1), W, queue)
  {
    var s := st.(saves := st.saves + 1);
    forall p ensures PathSound(s, W(p), p, Done(s, p), ForPath(queue, p)) {
      assert PathSound(st, W(p), p, Done(st, p), ForPath(queue, p));
    }
    hide CoveredTo;
  }

  lemma CommitIs(env: Env, st: AgentState)
    requires CommitAllowed(st.tailer, st.batchOffsets)
    ensures Commit(env, st) == if st.batchOffsets == map[] then (st, true)
                               else if env.saveOk(st.saves) then (Mark(Saved(st)), true)
                               else (st.(saves := st.saves + 1), false)
  {
  }

  /** A commit keeps the invariant; it fails only when the save itself fails. */
  lemma CommitSound(env: Env, st: AgentState, W: World, queue: seq<FileLine>)
    requires Sound(st, W, queue) && (st.batch == [] || st.pendingBatch != "")
    ensures Sound(Commit(env, st).0, W, queue)
    ensures Commit(env, st).1 <==> st.batchOffsets == map[] || env.saveOk(st.saves)
    ensures Commit(env, st).1 ==> Unsaved(Commit(env, st).0) == []
    ensures Commit(env, st).0.pendingBatch == st.pendingBatch && Commit(env, st).0.batch == st.batch
    ensures Unsaved(st) == [] ==> Commit(env, st).0.dropped == st.dropped
  {
    assert st.batchOffsets == map[] ==> Unsaved(st) == [];
    SavedSound(st, W, queue);
    MarkSound(Saved(st), W, queue);
    SavesSound(st, W, queue);
    CommitIs(env, st);
    hide Sound, Saved, CommitAllowed, Candidate, Ledger, Commit;
  }

  /** The state when a batch has been published, before it is marked. */
  function Published(env: Env, st: AgentState): AgentState {
    var io := env.write(st.writes);
    st.(writes := st.writes + 1, disk := Publish(st.disk, env.maxBytes, st.batch, io),
        pendingBatch := if io.WriteDone? then NewBatchName(io.now, io.random) else st.pendingBatch,
        written := if io.WriteDone? then |st.batch| else st.written,
        fates := if io.WriteDone? then Moved(st.fates, InQueue) else st.fates)
  }

  lemma PublishedCovered(env: Env, st: AgentState, W: World)
    requires Covered(st, W)
    ensures Covered(Published(env, st), W)
  {
    var s := Published(env, st);
    hide CoveredTo, Publish, NewBatchName;
    forall p
      ensures CoveredTo(s.log, s.fates, SETTLED, W(p), p, Get(s.tailer.offsets, p))
      ensures CoveredTo(s.log, s.fates, PROCESSED, W(p), p, Done(s, p))
    {
      CoveredMore(st.log, st.fates, SETTLED, s.log, s.fates, SETTLED, W(p), p, Get(st.tailer.offsets, p));
      CoveredMore(st.log, st.fates, PROCESSED, s.log, s.fates, PROCESSED, W(p), p, Done(st, p));
    }
  }

  lemma PublishedSound(env: Env, st: AgentState, W: World, queue: seq<FileLine>)
    requires Sound(st, W, queue) && st.pendingBatch == "" && st.batch != []
    ensures Sound(Published(env, st), W, queue)
    ensures env.write(st.writes).WriteDone? ==> Published(env, st).pendingBatch != ""
  {
    var s, io := Published(env, st), env.write(st.writes);
    PublishedCovered(env, st, W);
    if io.WriteDone? { NewNameEnds(io); }
    forall p ensures PathSound(s, W(p), p, Done(s, p), ForPath(queue, p)) {
      assert PathSound(st, W(p), p, Done(st, p), ForPath(queue, p));
    }
    hide Covered, Publish, NewBatchName;
  }

  lemma WriteIs(env: Env, st: AgentState)
    ensures WritePending(env, st) == if env.write(st.writes).WriteDone? then (Mark(Published(env, st)), true)
                                     else (Published(env, st), false)
  {
    hide NewBatchName;
  }

  /** The state when a flush has emptied the batch. */
  lemma EmptiedSound(st: AgentState, W: World, queue: seq<FileLine>)
    requires Sound(st, W, queue) && Unsaved(st) == []
    ensures Sound(st.(batch := [], pendingBatch := "", written := 0), W, queue)
  {
    var s := st.(batch := [], pendingBatch := "", written := 0);
    forall p ensures PathSound(s, W(p), p, Done(s, p), ForPath(queue, p)) {
      assert PathSound(st, W(p), p, Done(st, p), ForPath(queue, p));
    }
    assert Unsaved(s) == Unsaved(st);
    hide CoveredTo;
  }

  /** A flush keeps the invariant whatever fails. */
  lemma FlushSound(env: Env, st: AgentState, W: World, queue: seq<FileLine>)
    requires Sound(st, W, queue)
    ensures Sound(FlushBatch(env, st).st, W, queue)
    ensures AlwaysSaves(env) && Calm(st) ==> Calm(FlushBatch(env, st).st)
  {
    hide Covered, Steady, TrailSafe, LogOk, Commit, WritePending;
    if st.batch == [] {
      CommitSound(env, st, W, queue);
    } else {
      var st1 := st;
      if st.pendingBatch == "" {
        PublishedSound(env, st, W, queue);
        MarkSound(Published(env, st), W, queue);
        WriteIs(env, st);
        st1 := WritePending(env, st).0;
      }
      if st.pendingBatch != "" || WritePending(env, st).1 {
        CommitSound(env, st1, W, queue);
        if Commit(env, st1).1 { EmptiedSound(Commit(env, st1).0, W, queue); }
      }
    }
  }

  // ---------------------------------------------------------------- processing one entry

  /** The assembler has handed out `line`, which is yet to be processed. */
  ghost predicate Inflight(st: AgentState, W: World, queue: seq<FileLine>, line: FileLine) {
    && Ledger(st, W) && EntryText(W(line.path), Done(st, line.path), line)
    && forall p :: PathSound(st, W(p), p, if p == line.path then line.endOffset else Done(st, p), ForPath(queue, p))
  }

  /** Deciding an entry moves its file from in flight to processed. */
  lemma RecordAt(st: AgentState, s: AgentState, w: string, p: string, path: string, end: int, rest: seq<FileLine>)
    requires At(st, w, p, if p == path then end else Done(st, p), rest)
    requires s.tailer == st.tailer && s.stacks == st.stacks && s.settled == st.settled
    requires s.batchOffsets == st.batchOffsets[path := end] && (end > 0 || p != path || p in st.tailer.readOffsets)
    ensures At(s, w, p, Done(s, p), rest)
  {
    hide EntryText, Between, Boundary;
  }

  lemma RecordPath(st: AgentState, s: AgentState, w: string, p: string, path: string, end: int, rest: seq<FileLine>)
    requires PathSound(st, w, p, if p == path then end else Done(st, p), rest)
    requires s.tailer == st.tailer && s.stacks == st.stacks && s.settled == st.settled
    requires s.batchOffsets == st.batchOffsets[path := end] && end > 0
    ensures PathSound(s, w, p, Done(s, p), rest)
  {
    hide At, EntryText, Between, Boundary;
    RecordAt(st, s, w, p, path, end, rest);
  }

  lemma RecordSteady(env: Env, st: AgentState, W: World, queue: seq<FileLine>, line: FileLine, now: int)
    requires Inflight(st, W, queue, line)
    ensures Steady(Record(env, st, line, now), W, queue)
  {
    hide PathSound, Ledger, EntryText, Record, Taken, KeptBy, Unsaved;
    InflightEnd(st, W, queue, line);
    InflightBatched(st, W, queue, line);
    RecordIs(env, st, line, now);
    var s := Record(env, st, line, now);
    forall p ensures PathSound(s, W(p), p, Done(s, p), ForPath(queue, p)) {
      RecordPath(st, s, W(p), p, line.path, line.endOffset, ForPath(queue, p));
    }
  }

  lemma InflightEnd(st: AgentState, W: World, queue: seq<FileLine>, line: FileLine)
    requires Inflight(st, W, queue, line)
    ensures line.endOffset > 0
  {
  }

  /** The decision taken on `line`. */
  function Taken(env: Env, st: AgentState, line: FileLine, now: int): Decision {
    Decide(env.settings, line, now, st.drawn).0
  }

  function KeptBy(d: Decision): seq<Log> {
    if d.Keep? then [d.record] else []
  }

  lemma RecordKeeps(env: Env, st: AgentState, line: FileLine, now: int)
    ensures var s := Record(env, st, line, now);
            && s.log == st.log + [Entry(Done(st, line.path), line, now, st.drawn, Taken(env, st, line, now))]
            && s.fates == st.fates + [if Taken(env, st, line, now).Keep? then InMemory else NoRecord]
            && s.commits == st.commits && s.settled == st.settled
            && s.batchOffsets == st.batchOffsets[line.path := line.endOffset]
            && s.tailer == st.tailer && s.stacks == st.stacks && s.disk == st.disk && s.pendingBatch == st.pendingBatch
            && s.written == st.written && s.dropped == st.dropped && s.crashed == st.crashed && s.lateCrashed == st.lateCrashed
            && s.trail == st.trail && s.refused == st.refused && s.released == st.released
            && s.writes == st.writes && s.saves == st.saves
  {
    hide Decide;
  }

  lemma RecordBatch(env: Env, st: AgentState, line: FileLine, now: int)
    ensures var s := Record(env, st, line, now);
            && s.batch == st.batch + KeptBy(Taken(env, st, line, now)) && s.written == st.written
            && s.late == st.late + (if st.pendingBatch == "" then [] else KeptBy(Taken(env, st, line, now)))
  {
    hide Decide, Done;
    assert st.batch + [] == st.batch && st.late + [] == st.late;
  }

  lemma UnsavedGrows(a: AgentState, b: AgentState, more: seq<Log>)
    requires Batched(a) && b.batch == a.batch + more && b.written == a.written
    ensures Unsaved(b) == Unsaved(a) + more
  {
    assert b.batch[a.written..] == a.batch[a.written..] + more;
  }

  lemma RecordIs(env: Env, st: AgentState, line: FileLine, now: int)
    requires Batched(st)
    ensures var s := Record(env, st, line, now);
            && s.log == st.log + [Entry(Done(st, line.path), line, now, st.drawn, Taken(env, st, line, now))]
            && s.fates == st.fates + [if Taken(env, st, line, now).Keep? then InMemory else NoRecord]
            && s.commits == st.commits && s.settled == st.settled
            && s.batch == st.batch + KeptBy(Taken(env, st, line, now))
            && Unsaved(s) == Unsaved(st) + KeptBy(Taken(env, st, line, now))
            && s.late == st.late + (if st.pendingBatch == "" then [] else KeptBy(Taken(env, st, line, now)))
            && s.batchOffsets == st.batchOffsets[line.path := line.endOffset]
            && s.tailer == st.tailer && s.stacks == st.stacks && s.disk == st.disk && s.pendingBatch == st.pendingBatch
            && s.written == st.written && s.dropped == st.dropped && s.crashed == st.crashed && s.lateCrashed == st.lateCrashed
            && s.trail == st.trail && s.refused == st.refused && s.released == st.released
            && s.writes == st.writes && s.saves == st.saves
  {
    hide Taken, KeptBy, Batched, Unsaved, Done;
    RecordKeeps(env, st, line, now);
    RecordBatch(env, st, line, now);
    UnsavedGrows(st, Record(env, st, line, now), KeptBy(Taken(env, st, line, now)));
    hide Record;
  }

  lemma RecordCovered(env: Env, st: AgentState, W: World, line: FileLine, now: int)
    requires Covered(st, W) && Batched(st) && |st.log| == |st.fates|
    ensures Covered(Record(env, st, line, now), W)
  {
    hide Taken, Record, Unsaved, CoveredTo, KeptBy, Batched;
    RecordIs(env, st, line, now);
    var s, d := Record(env, st, line, now), Taken(env, st, line, now);
    var x := Entry(Done(st, line.path), line, now, st.drawn, d);
    var f := if d.Keep? then InMemory else NoRecord;
    forall p
      ensures CoveredTo(s.log, s.fates, SETTLED, W(p), p, Get(s.tailer.offsets, p))
      ensures CoveredTo(s.log, s.fates, PROCESSED, W(p), p, Done(s, p))
    {
      CoveredMore(st.log, st.fates, SETTLED, s.log, s.fates, SETTLED, W(p), p, Get(st.tailer.offsets, p));
      CoveredStep(st.log, st.fates, PROCESSED, x, f, W(p), p, Done(st, p), Done(s, p));
    }
  }

  lemma LogOkMore(log: seq<Entry>, x: Entry, W: World)
    requires LogOk(log, W) && EntryText(W(x.line.path), x.from, x.line)
    ensures LogOk(log + [x], W)
  {
    hide EntryText;
  }

  lemma RecordLedger(env: Env, st: AgentState, W: World, line: FileLine, now: int)
    requires Ledger(st, W) && EntryText(W(line.path), Done(st, line.path), line)
    ensures Ledger(Record(env, st, line, now), W)
  {
    RecordCovered(env, st, W, line, now);
    RecordIs(env, st, line, now);
    hide Taken, Covered, EntryText, TrailSafe, TrailSpared, LogOk, Record;
    assert line.path in Record(env, st, line, now).batchOffsets;
    var x := Entry(Done(st, line.path), line, now, st.drawn, Taken(env, st, line, now));
    LogOkMore(st.log, x, W);
  }

  lemma RecordSound(env: Env, st: AgentState, W: World, queue: seq<FileLine>, line: FileLine, now: int)
    requires Inflight(st, W, queue, line)
    ensures Sound(Record(env, st, line, now), W, queue)
  {
    RecordSteady(env, st, W, queue, line, now);
    RecordLedger(env, st, W, line, now);
  }

  lemma InflightBatched(st: AgentState, W: World, queue: seq<FileLine>, line: FileLine)
    requires Inflight(st, W, queue, line)
    ensures Batched(st)
  {
  }

  lemma ProcessSound(env: Env, g: Progress, W: World, queue: seq<FileLine>, line: FileLine, now: int)
    requires Inflight(g.st, W, queue, line)
    ensures Sound(Process(env, g, line, now).st, W, queue)
    ensures AlwaysSaves(env) && Calm(g.st) ==> Calm(Process(env, g, line, now).st)
  {
    InflightBatched(g.st, W, queue, line);
    RecordIs(env, g.st, line, now);
    hide Sound, Inflight, Record, FlushBatch, Taken, Batched, Unsaved;
    RecordSound(env, g.st, W, queue, line, now);
    FlushSound(env, Record(env, g.st, line, now), W, queue);
  }

  // ---------------------------------------------------------------- feeding one line

  lemma ForPathHead(line: FileLine, rest: seq<FileLine>)
    ensures ForPath([line] + rest, line.path) == [line] + ForPath(rest, line.path)
  {
    assert ([line] + rest)[1..] == rest;
  }

  /** The next line of a file stands directly behind what was fed. */
  lemma NextLine(st: AgentState, w: string, m: int, line: FileLine, rest: seq<FileLine>)
    requires At(st, w, line.path, m, [line] + rest)
    ensures var p := line.path;
            var fed, read := FedTo(st, p, m), Get(st.tailer.readOffsets, p);
            && 0 <= fed < line.endOffset <= read <= |w| && Boundary(w, fed)
            && LineBreak(w, line.endOffset) && Between(p, w, fed, line.endOffset) == [line]
            && Between(p, w, line.endOffset, read) == rest
  {
    hide FedTo, Between, EntryText;
    BetweenHead(line.path, w, FedTo(st, line.path, m), Get(st.tailer.readOffsets, line.path));
    assert ([line] + rest)[1..] == rest;
  }

  /** The same where all files are sound. */
  lemma NextLineOf(st: AgentState, W: World, line: FileLine, rest: seq<FileLine>)
    requires Steady(st, W, [line] + rest)
    ensures var p := line.path;
            var w, fed, read := W(p), FedTo(st, p, Done(st, p)), Get(st.tailer.readOffsets, p);
            && At(st, w, p, Done(st, p), [line] + ForPath(rest, p))
            && 0 <= fed < line.endOffset <= read <= |w| && Boundary(w, fed)
            && LineBreak(w, line.endOffset) && Between(p, w, fed, line.endOffset) == [line]
            && Between(p, w, line.endOffset, read) == ForPath(rest, p)
  {
    hide ForPath, FedTo, Done, Between, At;
    var p := line.path;
    ForPathHead(line, rest);
    assert PathSound(st, W(p), p, Done(st, p), ForPath([line] + rest, p));
    NextLine(st, W(p), Done(st, p), line, ForPath(rest, p));
  }

  lemma SingleText(w: string, from: int, line: FileLine)
    requires 0 <= from < line.endOffset <= |w| && Boundary(w, from) && LineBreak(w, line.endOffset)
    requires Between(line.path, w, from, line.endOffset) == [line]
    ensures EntryText(w, from, line)
  {
    assert [line][..0] == [];
    assert Join([line]) == "" + "\n" + line.text;
  }

  lemma ExtendedText(w: string, from: int, entry: FileLine, line: FileLine)
    requires EntryText(w, from, entry) && line.path == entry.path
    requires entry.endOffset < line.endOffset <= |w| && LineBreak(w, line.endOffset)
    requires Between(line.path, w, entry.endOffset, line.endOffset) == [line]
    ensures EntryText(w, from, Extend(entry, line))
  {
    hide Between, Join;
    BetweenSplit(line.path, w, from, entry.endOffset, line.endOffset);
    JoinSnoc(Between(line.path, w, from, entry.endOffset), entry, line);
  }

  lemma JoinSnoc(ls: seq<FileLine>, entry: FileLine, line: FileLine)
    requires "\n" + entry.text == Join(ls)
    ensures "\n" + Extend(entry, line).text == Join(ls + [line])
  {
    assert (ls + [line])[..|ls|] == ls;
    assert "\n" + (entry.text + "\n" + line.text) == ("\n" + entry.text) + "\n" + line.text;
  }

  /** The files other than `p` do not notice what the assembler does with `p`. */
  lemma OthersSound(st: AgentState, W: World, queue: seq<FileLine>, stacks: StackState, p: string, q: string,
                    rest: seq<FileLine>)
    requires Steady(st, W, queue) && q != p && ForPath(rest, q) == ForPath(queue, q)
    requires Open(stacks, q) == Open(st.stacks, q)
    ensures PathSound(st.(stacks := stacks), W(q), q, Done(st, q), ForPath(rest, q))
  {
    assert PathSound(st, W(q), q, Done(st, q), ForPath(queue, q));
  }

  lemma LedgerStacks(st: AgentState, W: World, stacks: StackState)
    requires Ledger(st, W)
    ensures Ledger(st.(stacks := stacks), W)
  {
    hide CoveredTo, Safe, LogOk;
  }

  /** What becomes of the line's own file when the assembler takes the line. */
  lemma OwnAt(st: AgentState, w: string, m: int, line: FileLine, rest: seq<FileLine>)
    requires At(st, w, line.path, m, [line] + rest)
    ensures var p := line.path;
            var (stacks, completed) := Add(st.stacks, line, 0);
            && |completed| <= 1
            && (completed != [] ==> completed[0].path == p && completed[0].endOffset >= m && EntryText(w, m, completed[0]))
            && At(st.(stacks := stacks), w, p, if completed == [] then m else completed[0].endOffset, rest)
  {
    NextLine(st, w, m, line, rest);
    SingleText(w, FedTo(st, line.path, m), line);
    if line.path in st.stacks.pending { ExtendedText(w, m, st.stacks.pending[line.path], line); }
    hide Between, ForPath, IsContinuation, Join;
  }

  lemma OwnSound(st: AgentState, W: World, line: FileLine, rest: seq<FileLine>)
    requires Steady(st, W, [line] + rest)
    ensures var p := line.path;
            var (stacks, completed) := Add(st.stacks, line, 0);
            var done := Done(st, p);
            var m := if completed == [] then done else completed[0].endOffset;
            && |completed| <= 1
            && (completed != [] ==> completed[0].path == p && EntryText(W(p), done, completed[0]))
            && PathSound(st.(stacks := stacks), W(p), p, m, ForPath(rest, p))
  {
    hide At, EntryText, Between, ForPath, Add;
    var p := line.path;
    NextLineOf(st, W, line, rest);
    assert PathSound(st, W(p), p, Done(st, p), ForPath([line] + rest, p));
    OwnAt(st, W(p), Done(st, p), line, ForPath(rest, p));
  }

  /** Where things stand when the assembler has taken the line and what it completed is yet to
      be processed. */
  lemma AddInflight(st: AgentState, W: World, line: FileLine, rest: seq<FileLine>, now: int)
    requires Sound(st, W, [line] + rest)
    ensures var (stacks, completed) := Add(st.stacks, line, now);
            && |completed| <= 1
            && (completed == [] ==> Sound(st.(stacks := stacks), W, rest))
            && (completed != [] ==> completed[0].path == line.path && Inflight(st.(stacks := stacks), W, rest, completed[0]))
  {
    hide Add, PathSound, EntryText, Ledger;
    var (stacks, completed) := Add(st.stacks, line, now);
    var st1 := st.(stacks := stacks);
    OwnSound(st, W, line, rest);
    LedgerStacks(st, W, stacks);
    AddElsewhere(st.stacks, line, now);
    var m := if completed == [] then Done(st, line.path) else completed[0].endOffset;
    forall q ensures PathSound(st1, W(q), q, if q == line.path then m else Done(st, q), ForPath(rest, q)) {
      if q != line.path {
        assert ([line] + rest)[1..] == rest;
        OthersSound(st, W, [line] + rest, stacks, line.path, q, rest);
      } else {
        SameSound(st, W(q), q, m, ForPath(rest, q), Add(st.stacks, line, 0).0, stacks);
      }
    }
    hide ForPath;
    if completed == [] {
      assert Steady(st1, W, rest);
    } else {
      assert Inflight(st1, W, rest, completed[0]);
    }
  }

  lemma AddSound(env: Env, g: Progress, W: World, line: FileLine, rest: seq<FileLine>, now: int)
    requires Sound(g.st, W, [line] + rest)
    ensures Sound(AddLine(env, g, line, now).st, W, rest)
    ensures AlwaysSaves(env) && Calm(g.st) ==> Calm(AddLine(env, g, line, now).st)
  {
    hide Add, Process, Sound, Inflight;
    AddInflight(g.st, W, line, rest, now);
    var (stacks, completed) := Add(g.st.stacks, line, now);
    var g1 := g.(st := g.st.(stacks := stacks));
    if completed != [] {
      assert completed == [completed[0]] && completed[1..] == [];
      assert ProcessAll(env, Process(env, g1, completed[0], now), completed[1..], now) == Process(env, g1, completed[0], now);
      ProcessSound(env, g1, W, rest, completed[0], now);
    }
  }

  lemma AddElsewhere(s: StackState, line: FileLine, now: int)
    ensures forall q | q != line.path :: Open(Add(s, line, now).0, q) == Open(s, q)
    ensures Add(s, line, now).1 == Add(s, line, 0).1 && Add(s, line, now).0.pending == Add(s, line, 0).0.pending
  {
  }

  lemma SameSound(st: AgentState, w: string, p: string, m: int, rest: seq<FileLine>, a: StackState, b: StackState)
    requires PathSound(st.(stacks := a), w, p, m, rest) && a.pending == b.pending
    ensures PathSound(st.(stacks := b), w, p, m, rest)
  {
  }

  lemma {:induction false} FeedSound(env: Env, g: Progress, W: World, lines: seq<FileLine>, now: int)
    requires Sound(g.st, W, lines)
    ensures Sound(FeedLines(env, g, lines, now).st, W, [])
    ensures AlwaysSaves(env) && Calm(g.st) ==> Calm(FeedLines(env, g, lines, now).st)
    decreases |lines|
  {
    hide Sound, AddLine;
    if lines != [] {
      assert [lines[0]] + lines[1..] == lines;
      AddSound(env, g, W, lines[0], lines[1..], now);
      FeedSound(env, AddLine(env, g, lines[0], now), W, lines[1..], now);
    }
  }

  // ---------------------------------------------------------------- taking entries off the assembler

  lemma TakenAt(st: AgentState, w: string, p: string, m: int, path: string, rest: seq<FileLine>)
    requires At(st, w, p, m, rest)
    ensures var (stacks, pending) := Stacks.Flush(st.stacks, path);
            && At(st.(stacks := stacks), w, p, if pending.Some? && p == path then pending.value.endOffset else m, rest)
            && (p == path && pending.Some? ==>
                  pending.value.path == path && pending.value.endOffset >= m && EntryText(w, m, pending.value))
  {
    hide Between, Join;
  }

  lemma TakenPath(st: AgentState, W: World, path: string, q: string)
    requires Steady(st, W, [])
    ensures var (stacks, pending) := Stacks.Flush(st.stacks, path);
            && PathSound(st.(stacks := stacks), W(q), q,
                 if pending.Some? && q == path then pending.value.endOffset else Done(st, q), ForPath([], q))
            && (pending.Some? ==> pending.value.path == path && EntryText(W(path), Done(st, path), pending.value))
  {
    hide At, EntryText, Stacks.Flush;
    assert PathSound(st, W(path), path, Done(st, path), ForPath([], path));
    assert PathSound(st, W(q), q, Done(st, q), ForPath([], q));
    TakenAt(st, W(path), path, Done(st, path), path, ForPath([], path));
    TakenAt(st, W(q), q, Done(st, q), path, ForPath([], q));
  }

  /** A held-back entry taken off the assembler is ready to be processed. */
  lemma TakenOff(st: AgentState, W: World, path: string)
    requires Sound(st, W, [])
    ensures var (stacks, pending) := Stacks.Flush(st.stacks, path);
            && (pending.None? ==> Sound(st.(stacks := stacks), W, []))
            && (pending.Some? ==> Inflight(st.(stacks := stacks), W, [], pending.value) && pending.value.path == path)
  {
    var (stacks, pending) := Stacks.Flush(st.stacks, path);
    LedgerStacks(st, W, stacks);
    TakenPath(st, W, path, path);
    hide Ledger, EntryText, PathSound, Stacks.Flush;
    forall q ensures PathSound(st.(stacks := stacks), W(q), q,
        if pending.Some? && q == path then pending.value.endOffset else Done(st, q), ForPath([], q)) {
      TakenPath(st, W, path, q);
    }
  }

  lemma LedgerReleased(st: AgentState, W: World, released: seq<FileLine>)
    requires Ledger(st, W)
    ensures Ledger(st.(released := released), W)
  {
    hide CoveredTo, Safe, LogOk;
  }

  lemma ReleasedSound(st: AgentState, W: World, queue: seq<FileLine>, line: FileLine, released: seq<FileLine>)
    requires Inflight(st, W, queue, line)
    ensures Inflight(st.(released := released), W, queue, line)
  {
    LedgerReleased(st, W, released);
    hide Ledger, EntryText, Between, Boundary;
    var s := st.(released := released);
    forall p ensures PathSound(s, W(p), p, if p == line.path then line.endOffset else Done(s, p), ForPath(queue, p)) {
      assert PathSound(st, W(p), p, if p == line.path then line.endOffset else Done(st, p), ForPath(queue, p));
    }
  }

  lemma IdleSound(env: Env, g: Progress, W: World, path: string, now: int)
    requires Sound(g.st, W, [])
    ensures Sound(IdleOne(env, g, path, now).st, W, [])
    ensures AlwaysSaves(env) && Calm(g.st) ==> Calm(IdleOne(env, g, path, now).st)
  {
    TakenOff(g.st, W, path);
    hide Sound, Inflight, Process, Stacks.Flush, Stacks.Idle;
    var (stacks, pending) := Stacks.Flush(g.st.stacks, path);
    var st1 := g.st.(stacks := stacks);
    if Stacks.Idle(g.st.stacks, path, now, IdleFor(env)) && pending.Some? {
      ReleasedSound(st1, W, [], pending.value, g.st.released + [pending.value]);
      ProcessSound(env, g.(st := st1.(released := g.st.released + [pending.value])), W, [], pending.value, now);
    }
    assert g.st.(stacks := g.st.stacks) == g.st;
  }

  lemma {:induction false} IdlesSound(env: Env, g: Progress, W: World, files: seq<string>, now: int)
    requires Sound(g.st, W, [])
    ensures Sound(Idles(env, g, files, now).st, W, [])
    ensures AlwaysSaves(env) && Calm(g.st) ==> Calm(Idles(env, g, files, now).st)
    decreases |files|
  {
    hide Sound, IdleOne;
    if files != [] {
      IdleSound(env, g, W, files[0], now);
      IdlesSound(env, IdleOne(env, g, files[0], now), W, files[1..], now);
    }
  }

  lemma FlushOneSound(env: Env, g: Progress, W: World, path: string, now: int)
    requires Sound(g.st, W, [])
    ensures Sound(FlushOne(env, g, path, now).st, W, [])
    ensures AlwaysSaves(env) && Calm(g.st) ==> Calm(FlushOne(env, g, path, now).st)
  {
    TakenOff(g.st, W, path);
    hide Sound, Inflight, Process, Stacks.Flush;
    var (stacks, pending) := Stacks.Flush(g.st.stacks, path);
    if pending.Some? {
      var st1, released := g.st.(stacks := stacks), g.st.released + [pending.value];
      ReleasedSound(st1, W, [], pending.value, released);
      ProcessSound(env, g.(st := st1.(released := released)), W, [], pending.value, now);
    }
  }

  lemma {:induction false} FlushOpenSound(env: Env, g: Progress, W: World, files: seq<string>, now: int)
    requires Sound(g.st, W, [])
    ensures Sound(FlushOpen(env, g, files, now).st, W, [])
    ensures AlwaysSaves(env) && Calm(g.st) ==> Calm(FlushOpen(env, g, files, now).st)
    decreases |files|
  {
    hide Sound, FlushOne;
    if files != [] && !g.failed {
      FlushOneSound(env, g, W, files[0], now);
      FlushOpenSound(env, FlushOne(env, g, files[0], now), W, files[1..], now);
    }
  }

  // ---------------------------------------------------------------- polls

  /** What a poll may see of an append-only world: nothing shrank, and the bytes delivered
      are a prefix of the eventual content. */
  ghost predicate AppendOnly(st: AgentState, W: World, files: seq<string>, obs: string -> Observation) {
    forall p | p in files :: Appending(st.tailer, p, W(p), obs(p))
  }

  /** The lines a poll reads of a file that grew are what is still to feed of it. */
  lemma ReadAt(st: AgentState, w: string, p: string, m: int, files: seq<string>, obs: string -> Observation)
    requires At(st, w, p, m, []) && Distinct(files) && (p in files ==> Appending(st.tailer, p, w, obs(p)))
    ensures var r := ReadNew(st.tailer, files, obs);
            At(st.(tailer := r.tailer), w, p, m, ForPath(r.lines, p)) && p !in r.resets
  {
    ReadPathAppending(Reading(st.tailer, [], [], false), files, obs, p, w);
    hide EntryText, Between, Boundary, ReadAll;
    BetweenHead(p, w, FedTo(st, p, m), Get(st.tailer.readOffsets, p));
  }

  lemma ReadPath(st: AgentState, W: World, files: seq<string>, obs: string -> Observation, p: string)
    requires Steady(st, W, []) && Distinct(files) && AppendOnly(st, W, files, obs)
    ensures var r := ReadNew(st.tailer, files, obs);
            var s := st.(tailer := r.tailer);
            && r.resets == [] && r.tailer.offsets == st.tailer.offsets
            && PathSound(s, W(p), p, Done(s, p), ForPath(r.lines, p))
  {
    assert PathSound(st, W(p), p, Done(st, p), ForPath([], p));
    ReadAt(st, W(p), p, Done(st, p), files, obs);
    NothingReset(Reading(st.tailer, [], [], false), files, obs, W);
    hide At, ReadAll, Steady;
  }

  lemma ReadSound(st: AgentState, W: World, files: seq<string>, obs: string -> Observation)
    requires Sound(st, W, []) && Distinct(files) && AppendOnly(st, W, files, obs)
    ensures var r := ReadNew(st.tailer, files, obs);
            r.resets == [] && Sound(st.(tailer := r.tailer), W, r.lines)
  {
    hide PathSound, ReadNew, AppendOnly, CoveredTo, LogOk, TrailSafe;
    var r := ReadNew(st.tailer, files, obs);
    var s := st.(tailer := r.tailer);
    ReadPath(st, W, files, obs, "");
    forall p ensures PathSound(s, W(p), p, Done(s, p), ForPath(r.lines, p)) {
      ReadPath(st, W, files, obs, p);
    }
  }

  /** A poll of append-only files keeps the invariant, whatever the disk does. */
  lemma PollSound(env: Env, st: AgentState, W: World, obs: string -> Observation, now: int)
    requires ValidEnv(env) && Sound(st, W, []) && AppendOnly(st, W, env.files, obs)
    ensures Sound(Poll(env, st, obs, now).st, W, [])
    ensures AlwaysSaves(env) && Calm(st) ==> Calm(Poll(env, st, obs, now).st)
  {
    ReadSound(st, W, env.files, obs);
    var r := ReadNew(st.tailer, env.files, obs);
    var g := Progress(st.(tailer := r.tailer), [], r.failed);
    FeedSound(env, g, W, r.lines, now);
    IdlesSound(env, FeedLines(env, g, r.lines, now), W, env.files, now);
    var g2 := Idles(env, FeedLines(env, g, r.lines, now), env.files, now);
    hide Sound, FeedLines, Idles, ReadNew, Commit;
    if g2.st.batch == [] { CommitSound(env, g2.st, W, []); }
  }

  lemma FlushAllSound(env: Env, st: AgentState, W: World, now: int)
    requires Sound(st, W, [])
    ensures Sound(Agents.Flush(env, st, now).st, W, [])
    ensures AlwaysSaves(env) && Calm(st) ==> Calm(Agents.Flush(env, st, now).st)
  {
    hide Sound, FlushOpen, FlushBatch;
    var g := FlushOpen(env, Progress(st, [], false), env.files, now);
    FlushOpenSound(env, Progress(st, [], false), W, env.files, now);
    FlushSound(env, g.st, W, []);
  }
}
