/**
 Files that shrink. Between polls every safe offset has been read, whatever the
 files do. A poll is refused a commit exactly when the first reset whose entry
 fills the batch comes before the reset of another file with a safe offset left
 over that its new read position no longer covers; so never when polls start
 with no safe offset left over, which a successful flush guarantees.
 */
module AgentShrinks {
  import Names
  import Stacks
  import opened Tailing
  import opened BatchStores
  import opened Processing
  import opened Agents
  import opened AgentSteps
  import opened AgentRuns
  import opened AgentRestart

  /** Offset `e` of file `p` has been read. */
  predicate Read(t: TailerState, p: string, e: int) {
    p in t.readOffsets && 0 <= e <= t.readOffsets[p]
  }

  predicate LinesRead(t: TailerState, lines: seq<FileLine>) {
    forall l | l in lines :: Read(t, l.path, l.endOffset)
  }

  /** The held-back entries of the files in `stale` are about to be thrown back to offset 0. */
  predicate HeldRead(st: AgentState, stale: seq<string>) {
    && (forall p | p in st.stacks.pending :: st.stacks.pending[p].path == p)
    && (forall p | p in st.stacks.pending && p !in stale :: Read(st.tailer, p, st.stacks.pending[p].endOffset))
    && (forall p | p in stale :: Read(st.tailer, p, 0))
  }

  /** The safe offsets of all other files have been read. */
  predicate OffsetsRead(st: AgentState, stale: seq<string>) {
    forall p | p in st.batchOffsets && p !in stale :: Read(st.tailer, p, st.batchOffsets[p])
  }

  predicate Bounded(st: AgentState, queue: seq<FileLine>, stale: seq<string>) {
    OffsetsRead(st, stale) && HeldRead(st, stale) && LinesRead(st.tailer, queue)
  }

  // ---------------------------------------------------------------- reading

  /** What a read of any files does for file `p`. */
  predicate ReadOk(r: Reading, s: Reading, p: string) {
    && (p in r.tailer.readOffsets ==> p in s.tailer.readOffsets)
    && (p in s.resets && p !in r.resets ==> p in s.tailer.readOffsets)
    && (p in r.resets ==> p in s.resets)
    && (p !in s.resets ==> Get(r.tailer.readOffsets, p) <= Get(s.tailer.readOffsets, p))
  }

  lemma ReadOneOk(r: Reading, q: string, o: Observation, p: string)
    ensures ReadOk(r, ReadOne(r, q, o), p)
    ensures p != q ==> Get(ReadOne(r, q, o).tailer.readOffsets, p) == Get(r.tailer.readOffsets, p)
    ensures p != q ==> (p in ReadOne(r, q, o).tailer.readOffsets <==> p in r.tailer.readOffsets)
  {
  }

  lemma ReadOneLines(r: Reading, q: string, o: Observation)
    requires LinesRead(r.tailer, r.lines) && forall l | l in r.lines :: l.path != q
    ensures LinesRead(ReadOne(r, q, o).tailer, ReadOne(r, q, o).lines)
    ensures forall l | l in ReadOne(r, q, o).lines :: l in r.lines || l.path == q
  {
    var s := ReadOne(r, q, o);
    if o.Opened? && o.seekOk {
      var known := Get(r.tailer.readOffsets, q);
      var a := if o.size < known then 0 else known;
      if a <= |o.data| {
        StopLines(q, o.data, o.data, a);
        LinesShape(q, o.data[..Stop(o.data, a)], a);
        assert s.lines == r.lines + Lines(q, o.data, a);
        forall l | l in s.lines ensures Read(s.tailer, l.path, l.endOffset) {
          if l in r.lines { assert Read(r.tailer, l.path, l.endOffset); }
        }
      }
    }
  }

  lemma {:induction false} ReadAllOk(r: Reading, files: seq<string>, obs: string -> Observation, p: string)
    requires Distinct(files) && LinesRead(r.tailer, r.lines) && forall l | l in r.lines :: l.path !in files
    ensures ReadOk(r, ReadAll(r, files, obs), p)
    ensures LinesRead(ReadAll(r, files, obs).tailer, ReadAll(r, files, obs).lines)
    decreases |files|
  {
    hide ReadOne, LinesRead;
    if files != [] {
      var q := files[0];
      var r1 := ReadOne(r, q, obs(q));
      ReadOneOk(r, q, obs(q), p);
      ReadOneLines(r, q, obs(q));
      forall x | x in files[1..] ensures x in files && x != q {
        var i :| 0 <= i < |files[1..]| && files[1..][i] == x;
        assert files[i + 1] == x;
      }
      ReadAllOk(r1, files[1..], obs, p);
    }
  }

  lemma ReadBounded(st: AgentState, files: seq<string>, obs: string -> Observation)
    requires Distinct(files) && Bounded(st, [], [])
    ensures var r := ReadNew(st.tailer, files, obs);
            Bounded(st.(tailer := r.tailer), r.lines, r.resets)
  {
    var r0 := Reading(st.tailer, [], [], false);
    var r := ReadNew(st.tailer, files, obs);
    var s := st.(tailer := r.tailer);
    ReadAllOk(r0, files, obs, "");
    hide ReadAll, LinesRead;
    forall p | p in st.stacks.pending && p !in r.resets ensures Read(s.tailer, p, st.stacks.pending[p].endOffset) {
      assert Read(st.tailer, p, st.stacks.pending[p].endOffset);
      ReadAllOk(r0, files, obs, p);
    }
    forall p | p in st.batchOffsets && p !in r.resets ensures Read(s.tailer, p, st.batchOffsets[p]) {
      assert Read(st.tailer, p, st.batchOffsets[p]);
      ReadAllOk(r0, files, obs, p);
    }
    forall p | p in r.resets ensures Read(s.tailer, p, 0) {
      ReadAllOk(r0, files, obs, p);
    }
  }

  /** Each file is reset at most once in a poll. */
  lemma {:induction false} ResetsDistinct(r: Reading, files: seq<string>, obs: string -> Observation)
    requires Distinct(files) && Distinct(r.resets) && forall p | p in r.resets :: p !in files
    ensures Distinct(ReadAll(r, files, obs).resets)
    decreases |files|
  {
    if files != [] {
      var q := files[0];
      var r1 := ReadOne(r, q, obs(q));
      assert q in files && (r1.resets == r.resets || r1.resets == r.resets + [q]);
      forall x | x in files[1..] ensures x in files && x != q {
        var i :| 0 <= i < |files[1..]| && files[1..][i] == x;
        assert files[i + 1] == x;
      }
      hide ReadOne;
      ResetsDistinct(r1, files[1..], obs);
    }
  }

  // ---------------------------------------------------------------- the steps of a poll

  lemma BoundedFlush(a: AgentState, b: AgentState, queue: seq<FileLine>, stale: seq<string>)
    requires Bounded(a, queue, stale) && AfterFlush(a, b)
    ensures Bounded(b, queue, stale) && (OffsetsRead(a, []) ==> b.refused == a.refused && OffsetsRead(b, []))
  {
  }

  lemma ProcessBounded(env: Env, g: Progress, queue: seq<FileLine>, stale: seq<string>, line: FileLine, now: int)
    requires Bounded(g.st, queue, stale) && Read(g.st.tailer, line.path, line.endOffset)
    ensures Bounded(Process(env, g, line, now).st, queue, stale)
    ensures OffsetsRead(g.st, []) ==> Process(env, g, line, now).st.refused == g.st.refused
                                      && OffsetsRead(Process(env, g, line, now).st, [])
  {
    ProcessFrame(env, g, line, now);
    var s := Record(env, g.st, line, now);
    hide Record, Process, Done, Decide, AfterFlush, HeldRead, LinesRead;
    assert Bounded(s, queue, stale) by { SameHeld(g.st, s, stale); }
    BoundedFlush(s, Process(env, g, line, now).st, queue, stale);
  }

  lemma SameHeld(a: AgentState, b: AgentState, stale: seq<string>)
    requires HeldRead(a, stale) && a.stacks == b.stacks && a.tailer.readOffsets == b.tailer.readOffsets
    ensures HeldRead(b, stale)
  {
  }

  lemma ResetState(st: AgentState, queue: seq<FileLine>, path: string, rest: seq<string>)
    requires Bounded(st, queue, [path] + rest)
    ensures var s := st.(batchOffsets := st.batchOffsets[path := 0], stacks := Stacks.Flush(st.stacks, path).0);
            Bounded(s, queue, rest) && Read(s.tailer, path, 0) && (OffsetsRead(st, []) ==> OffsetsRead(s, []))
  {
    assert path in [path] + rest && Read(st.tailer, path, 0);
    assert forall p | p in rest :: p in [path] + rest;
    assert forall p :: p in [path] + rest && p !in rest ==> p == path;
  }

  lemma ResetOneBounded(env: Env, g: Progress, queue: seq<FileLine>, path: string, rest: seq<string>, now: int)
    requires Bounded(g.st, queue, [path] + rest)
    ensures Bounded(ResetOne(env, g, path, now).st, queue, rest)
    ensures OffsetsRead(g.st, []) ==> ResetOne(env, g, path, now).st.refused == g.st.refused
                                      && OffsetsRead(ResetOne(env, g, path, now).st, [])
  {
    var (stacks, pending) := Stacks.Flush(g.st.stacks, path);
    var st := g.st.(batchOffsets := g.st.batchOffsets[path := 0], stacks := stacks);
    ResetState(g.st, queue, path, rest);
    hide Process, Bounded, HeldRead, OffsetsRead, LinesRead;
    if pending.Some? {
      PendingPath(g.st, [path] + rest, path);
      ProcessBounded(env, g.(st := st), queue, rest, pending.value.(endOffset := 0), now);
    }
  }

  lemma PendingPath(st: AgentState, stale: seq<string>, path: string)
    requires path in st.stacks.pending && HeldRead(st, stale)
    ensures st.stacks.pending[path].path == path
  {
  }

  lemma {:induction false} ResetsBounded(env: Env, g: Progress, queue: seq<FileLine>, paths: seq<string>, now: int)
    requires Bounded(g.st, queue, paths)
    ensures Bounded(Resets(env, g, paths, now).st, queue, [])
    ensures OffsetsRead(g.st, []) ==> Resets(env, g, paths, now).st.refused == g.st.refused
    decreases |paths|
  {
    hide ResetOne, Bounded, OffsetsRead;
    if paths != [] {
      assert [paths[0]] + paths[1..] == paths;
      ResetOneBounded(env, g, queue, paths[0], paths[1..], now);
      ResetsBounded(env, ResetOne(env, g, paths[0], now), queue, paths[1..], now);
    }
  }

  /** Between polls nothing is stale. */
  lemma NothingStale(st: AgentState, queue: seq<FileLine>)
    requires Bounded(st, queue, [])
    ensures OffsetsRead(st, [])
  {
  }

  lemma AddBounded(env: Env, g: Progress, line: FileLine, rest: seq<FileLine>, now: int)
    requires Bounded(g.st, [line] + rest, [])
    ensures Bounded(AddLine(env, g, line, now).st, rest, [])
    ensures AddLine(env, g, line, now).st.refused == g.st.refused
  {
    var (stacks, completed) := Stacks.Add(g.st.stacks, line, now);
    var g1 := g.(st := g.st.(stacks := stacks));
    assert line in [line] + rest && Read(g.st.tailer, line.path, line.endOffset);
    assert forall l | l in rest :: l in [line] + rest;
    assert Bounded(g1.st, rest, []);
    if completed != [] {
      assert completed == [completed[0]] && completed[1..] == [];
      assert Read(g.st.tailer, completed[0].path, completed[0].endOffset);
    }
    NothingStale(g1.st, rest);
    hide Process, Bounded, Stacks.Add, OffsetsRead;
    if completed != [] {
      ProcessBounded(env, g1, rest, [], completed[0], now);
      assert ProcessAll(env, Process(env, g1, completed[0], now), completed[1..], now) == Process(env, g1, completed[0], now);
    }
  }

  lemma {:induction false} FeedBounded(env: Env, g: Progress, lines: seq<FileLine>, now: int)
    requires Bounded(g.st, lines, [])
    ensures Bounded(FeedLines(env, g, lines, now).st, [], [])
    ensures FeedLines(env, g, lines, now).st.refused == g.st.refused
    decreases |lines|
  {
    hide AddLine, Bounded;
    if lines != [] {
      assert [lines[0]] + lines[1..] == lines;
      AddBounded(env, g, lines[0], lines[1..], now);
      FeedBounded(env, AddLine(env, g, lines[0], now), lines[1..], now);
    }
  }

  /** Taking an entry off the assembler and processing it. */
  lemma ReleaseBounded(env: Env, g: Progress, path: string, released: seq<FileLine>, now: int)
    requires Bounded(g.st, [], [])
    ensures var (stacks, pending) := Stacks.Flush(g.st.stacks, path);
            var g1 := g.(st := g.st.(stacks := stacks, released := released));
            && (pending.None? ==> Bounded(g.st.(stacks := stacks), [], []))
            && (pending.Some? ==> Bounded(Process(env, g1, pending.value, now).st, [], [])
                                  && Process(env, g1, pending.value, now).st.refused == g.st.refused)
  {
    var (stacks, pending) := Stacks.Flush(g.st.stacks, path);
    var g1 := g.(st := g.st.(stacks := stacks, released := released));
    assert Bounded(g.st.(stacks := stacks), [], []) && Bounded(g1.st, [], []);
    NothingStale(g1.st, []);
    hide Process, Bounded, HeldRead, OffsetsRead;
    if pending.Some? {
      HeldHere(g.st, path);
      ProcessBounded(env, g1, [], [], pending.value, now);
    }
  }

  lemma HeldHere(st: AgentState, path: string)
    requires Bounded(st, [], []) && path in st.stacks.pending
    ensures Read(st.tailer, st.stacks.pending[path].path, st.stacks.pending[path].endOffset)
  {
  }

  lemma {:induction false} IdlesBounded(env: Env, g: Progress, files: seq<string>, now: int)
    requires Bounded(g.st, [], [])
    ensures Bounded(Idles(env, g, files, now).st, [], [])
    ensures Idles(env, g, files, now).st.refused == g.st.refused
    decreases |files|
  {
    hide Process, Bounded, Stacks.Flush;
    if files != [] {
      var released := g.st.released + Stacks.Opt(Stacks.Flush(g.st.stacks, files[0]).1);
      ReleaseBounded(env, g, files[0], released, now);
      assert g.st.(stacks := g.st.stacks) == g.st;
      IdlesBounded(env, IdleOne(env, g, files[0], now), files[1..], now);
    }
  }

  lemma {:induction false} FlushOpenBounded(env: Env, g: Progress, files: seq<string>, now: int)
    requires Bounded(g.st, [], [])
    ensures Bounded(FlushOpen(env, g, files, now).st, [], [])
    ensures FlushOpen(env, g, files, now).st.refused == g.st.refused
    decreases |files|
  {
    hide Process, Bounded, Stacks.Flush;
    if files != [] && !g.failed {
      var released := g.st.released + Stacks.Opt(Stacks.Flush(g.st.stacks, files[0]).1);
      ReleaseBounded(env, g, files[0], released, now);
      FlushOpenBounded(env, FlushOne(env, g, files[0], now), files[1..], now);
    }
  }

  /** The resets are the only part of a poll in which a commit can be refused. */
  lemma PollBounded(env: Env, st: AgentState, obs: string -> Observation, now: int)
    requires ValidEnv(env) && Bounded(st, [], [])
    ensures var r := ReadNew(st.tailer, env.files, obs);
            var g := Progress(st.(tailer := r.tailer), [], r.failed);
            && Bounded(g.st, r.lines, r.resets) && Bounded(Poll(env, st, obs, now).st, [], [])
            && Poll(env, st, obs, now).st.refused == Resets(env, g, r.resets, now).st.refused
  {
    hide Bounded, Resets, FeedLines, Idles, ReadNew, Commit, OffsetsRead;
    ReadBounded(st, env.files, obs);
    var r := ReadNew(st.tailer, env.files, obs);
    var g := Progress(st.(tailer := r.tailer), [], r.failed);
    ResetsBounded(env, g, r.lines, r.resets, now);
    var g1 := Resets(env, g, r.resets, now);
    FeedBounded(env, g1, r.lines, now);
    var g2 := FeedLines(env, g1, r.lines, now);
    IdlesBounded(env, g2, env.files, now);
    var g3 := Idles(env, g2, env.files, now);
    CommitFrame(env, g3.st);
    NothingStale(g3.st, []);
    BoundedFlush(g3.st, Commit(env, g3.st).0, [], []);
  }

  // ---------------------------------------------------------------- when a commit is refused

  /** The reset of `path` fills the batch and gets as far as the commit. */
  predicate Attempts(env: Env, st: AgentState, path: string, now: int) {
    && path in st.stacks.pending
    && Decide(env.settings, st.stacks.pending[path].(endOffset := 0), now, st.drawn).0.Keep?
    && |st.batch| + 1 >= env.batchSize
    && (st.pendingBatch != "" || env.write(st.writes).WriteDone?)
  }

  /** File `q` has a safe offset that its read position does not cover. */
  predicate LeftBehind(st: AgentState, q: string) {
    q in st.batchOffsets && !Read(st.tailer, q, st.batchOffsets[q])
  }

  predicate OtherLeftBehind(st: AgentState, path: string) {
    exists q :: q in st.batchOffsets && q != path && LeftBehind(st, q)
  }

  /** The commit of safe offsets with that of `path` set to 0 is refused exactly when another
      file's is left behind. */
  lemma GuardMeaning(t: TailerState, safe: map<string, int>, path: string)
    requires Read(t, path, 0)
    ensures CommitAllowed(t, safe[path := 0]) <==> !exists q :: q in safe && q != path && !Read(t, q, safe[q])
  {
    if q :| q in safe && q != path && !Read(t, q, safe[q]) { assert q in safe[path := 0]; }
    if !CommitAllowed(t, safe[path := 0]) {
      var q :| q in safe[path := 0] && !Read(t, q, safe[path := 0][q]);
      assert q in safe && q != path;
    }
  }

  lemma CommitRefused(env: Env, st: AgentState)
    requires st.batchOffsets != map[]
    ensures Commit(env, st).0.refused == st.refused + (if CommitAllowed(st.tailer, st.batchOffsets) then 0 else 1)
  {
    hide CommitAllowed, Candidate;
  }

  /** A full batch's flush is refused exactly when it gets as far as a commit that is not allowed. */
  lemma FlushRefused(env: Env, st: AgentState)
    requires st.batch != [] && st.batchOffsets != map[]
    ensures FlushBatch(env, st).st.refused
         == st.refused + (if (st.pendingBatch != "" || env.write(st.writes).WriteDone?) && !CommitAllowed(st.tailer, st.batchOffsets)
                          then 1 else 0)
  {
    CommitRefused(env, st);
    CommitRefused(env, WritePending(env, st).0);
    hide CommitAllowed, Candidate, Publish, Names.NewBatchName, Commit;
  }

  /** The state once the held-back entry of a reset file has been decided. */
  function Decided(env: Env, st: AgentState, path: string, now: int): AgentState
    requires path in st.stacks.pending
  {
    Record(env, st.(batchOffsets := st.batchOffsets[path := 0], stacks := Stacks.Flush(st.stacks, path).0),
           st.stacks.pending[path].(endOffset := 0), now)
  }

  lemma DecidedIs(env: Env, st: AgentState, path: string, now: int)
    requires path in st.stacks.pending && st.stacks.pending[path].path == path
    ensures var s := Decided(env, st, path, now);
            var (d, drawn) := Decide(env.settings, st.stacks.pending[path].(endOffset := 0), now, st.drawn);
            && s.batchOffsets == st.batchOffsets[path := 0] && s.tailer == st.tailer && s.refused == st.refused
            && s.stacks.pending == st.stacks.pending - {path} && s.drawn == drawn && s.writes == st.writes
            && s.pendingBatch == st.pendingBatch
            && (d.Keep? ==> |s.batch| == |st.batch| + 1) && (!d.Keep? ==> s.batch == st.batch)
  {
    hide Decide, Done;
    assert st.batchOffsets[path := 0][path := 0] == st.batchOffsets[path := 0];
  }

  lemma ResetOneIs(env: Env, g: Progress, path: string, now: int)
    ensures path !in g.st.stacks.pending ==>
              var s := ResetOne(env, g, path, now).st;
              && s.batchOffsets == g.st.batchOffsets[path := 0] && s.tailer == g.st.tailer && s.refused == g.st.refused
              && s.stacks.pending == g.st.stacks.pending - {path} && s.drawn == g.st.drawn && s.writes == g.st.writes
              && s.pendingBatch == g.st.pendingBatch && s.batch == g.st.batch
    ensures path in g.st.stacks.pending ==>
              var s := Decided(env, g.st, path, now);
              ResetOne(env, g, path, now).st == if s.batch == g.st.batch || |s.batch| < env.batchSize then s else FlushBatch(env, s).st
  {
    hide Record, FlushBatch;
  }

  /** One reset is refused its commit exactly when it gets that far and another file's safe
      offset is left behind. */
  lemma ResetRefused(env: Env, g: Progress, path: string, now: int)
    requires ValidEnv(env) && Read(g.st.tailer, path, 0)
    requires path in g.st.stacks.pending ==> g.st.stacks.pending[path].path == path
    ensures ResetOne(env, g, path, now).st.refused
         == g.st.refused + (if Attempts(env, g.st, path, now) && OtherLeftBehind(g.st, path) then 1 else 0)
  {
    ResetOneIs(env, g, path, now);
    hide ResetOne, Read, Decide, Decided, FlushBatch, CommitAllowed;
    if path in g.st.stacks.pending {
      var s := Decided(env, g.st, path, now);
      DecidedIs(env, g.st, path, now);
      GuardMeaning(g.st.tailer, g.st.batchOffsets, path);
      assert path in s.batchOffsets;
      if s.batch != [] { FlushRefused(env, s); }
    }
  }

  /** A reset that does not get as far as its commit: what it leaves. */
  lemma ResetQuiet(env: Env, g: Progress, path: string, now: int)
    requires ValidEnv(env) && !Attempts(env, g.st, path, now)
    requires path in g.st.stacks.pending ==> g.st.stacks.pending[path].path == path
    ensures var s := ResetOne(env, g, path, now).st;
            && s.batchOffsets == g.st.batchOffsets[path := 0] && s.tailer == g.st.tailer && s.refused == g.st.refused
            && s.stacks.pending == g.st.stacks.pending - {path} && s.pendingBatch == g.st.pendingBatch
            && (|s.batch|, s.drawn, s.writes) == AfterReset(env, g.st, path, now, |g.st.batch|, g.st.drawn, g.st.writes)
  {
    ResetOneIs(env, g, path, now);
    hide ResetOne, Decide, Decided, FlushBatch;
    if path in g.st.stacks.pending {
      var s := Decided(env, g.st, path, now);
      DecidedIs(env, g.st, path, now);
      if s.batch != g.st.batch && |s.batch| >= env.batchSize { FailedFlush(env, s); }
    }
  }

  lemma FailedFlush(env: Env, st: AgentState)
    requires st.batch != [] && st.pendingBatch == "" && env.write(st.writes).WriteFailed?
    ensures FlushBatch(env, st).st == st.(writes := st.writes + 1)
  {
  }

  /** Batch size, draws and writes used after the reset of a file that does not get as far as
      its commit. */
  function AfterReset(env: Env, st: AgentState, path: string, now: int, size: nat, drawn: nat, writes: nat): (nat, nat, nat) {
    if path !in st.stacks.pending then (size, drawn, writes)
    else
      var (d, after) := Decide(env.settings, st.stacks.pending[path].(endOffset := 0), now, drawn);
      if !d.Keep? then (size, after, writes)
      else if size + 1 < env.batchSize then (size + 1, after, writes)
      else (size + 1, after, writes + 1)
  }

  /** Which reset is the first to get as far as its commit, from what is known before the first:
      the entries held back, the batch size, and the draws and writes used. */
  function FirstAttempt(env: Env, st: AgentState, paths: seq<string>, now: int, size: nat, drawn: nat, writes: nat): nat
    decreases |paths|
  {
    if paths == [] then 0
    else if && paths[0] in st.stacks.pending
            && Decide(env.settings, st.stacks.pending[paths[0]].(endOffset := 0), now, drawn).0.Keep?
            && size + 1 >= env.batchSize && (st.pendingBatch != "" || env.write(writes).WriteDone?) then 0
    else
      var (size1, drawn1, writes1) := AfterReset(env, st, paths[0], now, size, drawn, writes);
      1 + FirstAttempt(env, st, paths[1..], now, size1, drawn1, writes1)
  }

  /** Only the held-back entries of the files in question matter. */
  lemma {:induction false} FirstAttemptSame(env: Env, a: AgentState, b: AgentState, paths: seq<string>, now: int,
                                            size: nat, drawn: nat, writes: nat)
    requires a.pendingBatch == b.pendingBatch && forall p | p in paths :: Stacks.Open(a.stacks, p) == Stacks.Open(b.stacks, p)
    ensures FirstAttempt(env, a, paths, now, size, drawn, writes) == FirstAttempt(env, b, paths, now, size, drawn, writes)
    decreases |paths|
  {
    hide Decide;
    if paths != [] {
      assert paths[0] in paths && Stacks.Open(a.stacks, paths[0]) == Stacks.Open(b.stacks, paths[0]);
      var (size1, drawn1, writes1) := AfterReset(env, a, paths[0], now, size, drawn, writes);
      FirstAttemptSame(env, a, b, paths[1..], now, size1, drawn1, writes1);
    }
  }

  /** Some file reset after the first attempted commit has a safe offset left behind. */
  predicate RefusingResets(env: Env, st: AgentState, paths: seq<string>, now: int) {
    var k := FirstAttempt(env, st, paths, now, |st.batch|, st.drawn, st.writes);
    exists j :: k < j < |paths| && LeftBehind(st, paths[j])
  }

  lemma ResetMonotone(env: Env, g: Progress, path: string, now: int)
    requires ValidEnv(env) && Read(g.st.tailer, path, 0)
    requires path in g.st.stacks.pending ==> g.st.stacks.pending[path].path == path
    ensures ResetOne(env, g, path, now).st.refused >= g.st.refused
  {
    hide ResetOne, Attempts, OtherLeftBehind;
    ResetRefused(env, g, path, now);
  }

  lemma {:induction false} ResetsMonotone(env: Env, g: Progress, queue: seq<FileLine>, paths: seq<string>, now: int)
    requires ValidEnv(env) && Bounded(g.st, queue, paths)
    ensures Resets(env, g, paths, now).st.refused >= g.st.refused
    decreases |paths|
  {
    hide ResetOne;
    if paths != [] {
      assert [paths[0]] + paths[1..] == paths;
      ResetFacts(g.st, queue, paths[0], paths[1..]);
      hide Bounded;
      ResetMonotone(env, g, paths[0], now);
      ResetOneBounded(env, g, queue, paths[0], paths[1..], now);
      ResetsMonotone(env, ResetOne(env, g, paths[0], now), queue, paths[1..], now);
    }
  }

  lemma ResetFacts(st: AgentState, queue: seq<FileLine>, path: string, rest: seq<string>)
    requires Bounded(st, queue, [path] + rest)
    ensures Read(st.tailer, path, 0) && (path in st.stacks.pending ==> st.stacks.pending[path].path == path)
  {
    assert path in [path] + rest;
  }

  /** The first reset gets as far as its commit. */
  lemma AttemptNow(env: Env, g: Progress, queue: seq<FileLine>, path: string, rest: seq<string>, now: int)
    requires ValidEnv(env) && Bounded(g.st, queue, [path] + rest) && path !in rest && Attempts(env, g.st, path, now)
    ensures Resets(env, ResetOne(env, g, path, now), rest, now).st.refused > g.st.refused
       <==> exists j :: 0 <= j < |rest| && LeftBehind(g.st, rest[j])
  {
    ResetFacts(g.st, queue, path, rest);
    ResetRefused(env, g, path, now);
    OnlyRest(g.st, queue, path, rest);
    ResetOneBounded(env, g, queue, path, rest, now);
    var g1 := ResetOne(env, g, path, now);
    if OtherLeftBehind(g.st, path) {
      hide ResetOne, Bounded, Attempts, OtherLeftBehind, LeftBehind;
      ResetsMonotone(env, g1, queue, rest, now);
    } else {
      AllCovered(env, g, path, now);
      hide ResetOne, Bounded, Attempts, OtherLeftBehind, LeftBehind, OffsetsRead;
      ResetsBounded(env, g1, queue, rest, now);
    }
  }

  lemma OnlyRest(st: AgentState, queue: seq<FileLine>, path: string, rest: seq<string>)
    requires Bounded(st, queue, [path] + rest) && path !in rest
    ensures OtherLeftBehind(st, path) <==> exists j :: 0 <= j < |rest| && LeftBehind(st, rest[j])
  {
    hide Read, HeldRead, LinesRead;
    if OtherLeftBehind(st, path) {
      var q :| q in st.batchOffsets && q != path && LeftBehind(st, q);
      assert q in [path] + rest && q in rest;
      var j :| 0 <= j < |rest| && rest[j] == q;
      assert LeftBehind(st, rest[j]);
    }
    if j :| 0 <= j < |rest| && LeftBehind(st, rest[j]) {
      assert rest[j] in rest;
    }
  }

  lemma ResetOffsets(env: Env, g: Progress, path: string, now: int)
    requires path in g.st.stacks.pending ==> g.st.stacks.pending[path].path == path
    ensures var s := ResetOne(env, g, path, now).st;
            && s.tailer.readOffsets == g.st.tailer.readOffsets
            && (s.batchOffsets == g.st.batchOffsets[path := 0] || s.batchOffsets == map[])
  {
    ResetOneIs(env, g, path, now);
    hide ResetOne, Decided, FlushBatch, Decide, CommitAllowed;
    if path in g.st.stacks.pending {
      DecidedIs(env, g.st, path, now);
      FlushFrame(env, Decided(env, g.st, path, now));
    }
  }

  /** When no other file is left behind, nothing is once `path` has been reset. */
  lemma AllCovered(env: Env, g: Progress, path: string, now: int)
    requires !OtherLeftBehind(g.st, path) && Read(g.st.tailer, path, 0)
    requires path in g.st.stacks.pending ==> g.st.stacks.pending[path].path == path
    ensures OffsetsRead(ResetOne(env, g, path, now).st, [])
  {
    hide ResetOne;
    ResetOffsets(env, g, path, now);
    forall p | p in g.st.batchOffsets && p != path ensures Read(g.st.tailer, p, g.st.batchOffsets[p]) {
      assert !LeftBehind(g.st, p);
    }
  }

  /** The resets of a poll are refused a commit exactly when a file reset after the first
      attempted commit has a safe offset left behind. */
  lemma {:induction false} ResetsRefused(env: Env, g: Progress, queue: seq<FileLine>, paths: seq<string>, now: int)
    requires ValidEnv(env) && Bounded(g.st, queue, paths) && Distinct(paths)
    ensures Resets(env, g, paths, now).st.refused > g.st.refused <==> RefusingResets(env, g.st, paths, now)
    decreases |paths|
  {
    if paths != [] {
      var path, rest := paths[0], paths[1..];
      assert paths == [path] + rest && path !in rest && Distinct(rest);
      if Attempts(env, g.st, path, now) {
        AttemptNow(env, g, queue, path, rest, now);
        RefusingNow(env, g.st, paths, now);
      } else {
        ResetFacts(g.st, queue, path, rest);
        ResetQuiet(env, g, path, now);
        ResetOneBounded(env, g, queue, path, rest, now);
        ResetsRefused(env, ResetOne(env, g, path, now), queue, rest, now);
        RefusingLater(env, g, paths, now);
      }
    }
  }

  lemma RefusingNow(env: Env, st: AgentState, paths: seq<string>, now: int)
    requires paths != [] && Attempts(env, st, paths[0], now)
    ensures RefusingResets(env, st, paths, now) <==> exists j :: 0 <= j < |paths[1..]| && LeftBehind(st, paths[1..][j])
  {
    hide LeftBehind, Decide;
    assert FirstAttempt(env, st, paths, now, |st.batch|, st.drawn, st.writes) == 0;
    if j :| 0 < j < |paths| && LeftBehind(st, paths[j]) { assert paths[1..][j - 1] == paths[j]; }
    if j :| 0 <= j < |paths[1..]| && LeftBehind(st, paths[1..][j]) { assert paths[j + 1] == paths[1..][j]; }
  }

  /** What matters of a file that is still to be reset. */
  predicate SameForReset(a: AgentState, b: AgentState, p: string) {
    Stacks.Open(a.stacks, p) == Stacks.Open(b.stacks, p) && (LeftBehind(a, p) <==> LeftBehind(b, p))
  }

  lemma OthersSame(a: AgentState, b: AgentState, path: string, p: string)
    requires p != path && b.tailer == a.tailer
    requires b.batchOffsets == a.batchOffsets[path := 0] && b.stacks.pending == a.stacks.pending - {path}
    ensures SameForReset(a, b, p)
  {
    hide Read;
  }

  lemma ShiftIndex(a: AgentState, b: AgentState, paths: seq<string>, k: nat)
    requires paths != [] && forall p | p in paths[1..] :: SameForReset(a, b, p)
    ensures (exists j :: 1 + k < j < |paths| && LeftBehind(a, paths[j]))
       <==> (exists j :: k < j < |paths[1..]| && LeftBehind(b, paths[1..][j]))
  {
    hide LeftBehind;
    var rest := paths[1..];
    if j :| 1 + k < j < |paths| && LeftBehind(a, paths[j]) {
      assert rest[j - 1] == paths[j] && rest[j - 1] in rest && SameForReset(a, b, rest[j - 1]);
    }
    if j :| k < j < |rest| && LeftBehind(b, rest[j]) {
      assert paths[j + 1] == rest[j] && rest[j] in rest && SameForReset(a, b, rest[j]);
    }
  }

  /** A quiet reset only moves on. */
  lemma RefusingLater(env: Env, g: Progress, paths: seq<string>, now: int)
    requires ValidEnv(env) && paths != [] && Distinct(paths) && !Attempts(env, g.st, paths[0], now)
    requires paths[0] in g.st.stacks.pending ==> g.st.stacks.pending[paths[0]].path == paths[0]
    ensures RefusingResets(env, g.st, paths, now)
       <==> RefusingResets(env, ResetOne(env, g, paths[0], now).st, paths[1..], now)
  {
    var st, s, rest := g.st, ResetOne(env, g, paths[0], now).st, paths[1..];
    ResetQuiet(env, g, paths[0], now);
    var (size1, drawn1, writes1) := AfterReset(env, st, paths[0], now, |st.batch|, st.drawn, st.writes);
    assert FirstAttempt(env, st, paths, now, |st.batch|, st.drawn, st.writes)
        == 1 + FirstAttempt(env, st, rest, now, size1, drawn1, writes1);
    HeadApart(paths);
    hide ResetOne, AfterReset, Decide, Attempts, Distinct, FirstAttempt;
    forall p | p in rest ensures SameForReset(st, s, p) { OthersSame(st, s, paths[0], p); }
    FirstAttemptSame(env, st, s, rest, now, size1, drawn1, writes1);
    hide LeftBehind, SameForReset;
    ShiftIndex(st, s, paths, FirstAttempt(env, s, rest, now, size1, drawn1, writes1));
  }

  /** When a poll is refused a commit, from the state before the poll and what it sees. */
  predicate RefusingPoll(env: Env, st: AgentState, obs: string -> Observation, now: int) {
    var r := ReadNew(st.tailer, env.files, obs);
    RefusingResets(env, st.(tailer := r.tailer), r.resets, now)
  }

  lemma PollRefused(env: Env, st: AgentState, obs: string -> Observation, now: int)
    requires ValidEnv(env) && Bounded(st, [], [])
    ensures Bounded(Poll(env, st, obs, now).st, [], []) && Poll(env, st, obs, now).st.refused >= st.refused
    ensures Poll(env, st, obs, now).st.refused > st.refused <==> RefusingPoll(env, st, obs, now)
  {
    PollBounded(env, st, obs, now);
    var r0 := Reading(st.tailer, [], [], false);
    var r := ReadNew(st.tailer, env.files, obs);
    ResetsDistinct(r0, env.files, obs);
    var g := Progress(st.(tailer := r.tailer), [], r.failed);
    hide Poll, Resets, ReadAll, Bounded, RefusingResets;
    ResetsMonotone(env, g, r.lines, r.resets, now);
    ResetsRefused(env, g, r.lines, r.resets, now);
  }

  // ---------------------------------------------------------------- whole runs

  lemma NextBounded(env: Env, st: AgentState, ev: Event)
    requires ValidEnv(env) && Bounded(st, [], [])
    ensures Bounded(Next(env, st, ev), [], []) && Next(env, st, ev).refused >= st.refused
    ensures Next(env, st, ev).refused > st.refused <==> ev.Polled? && RefusingPoll(env, st, ev.obs, ev.now)
  {
    hide Poll, FlushBatch, FlushOpen, AfterFlush, Apply, RecoverClaims, RefusingPoll;
    NothingStale(st, []);
    match ev
    case Polled(now, obs) => hide Bounded; PollRefused(env, st, obs, now);
    case Flushed => hide Bounded, OffsetsRead; FlushFrame(env, st); BoundedFlush(st, FlushBatch(env, st).st, [], []);
    case ShutDown(now) =>
      hide Bounded, OffsetsRead;
      var g := FlushOpen(env, Progress(st, [], false), env.files, now);
      FlushOpenBounded(env, Progress(st, [], false), env.files, now);
      NothingStale(g.st, []);
      FlushFrame(env, g.st);
      BoundedFlush(g.st, FlushBatch(env, g.st).st, [], []);
    case Drained =>
    case SenderActs(op) =>
    case Crashed(at, stuck, nanos) =>
  }

  /** In every run, whatever the files do: between events every safe offset has been read, so a
      commit tried then is allowed; and commits have been refused exactly if some poll met the
      condition above. */
  lemma {:induction false} RefusedExactly(env: Env, evs: seq<Event>)
    requires ValidEnv(env)
    ensures var st := Run(env, FRESH, evs); Bounded(st, [], []) && CommitAllowed(st.tailer, st.batchOffsets)
    ensures Run(env, FRESH, evs).refused > 0
       <==> exists i :: 0 <= i < |evs| && evs[i].Polled? && RefusingPoll(env, Run(env, FRESH, evs[..i]), evs[i].obs, evs[i].now)
  {
    hide Next, RefusingPoll;
    if evs != [] {
      var n := |evs| - 1;
      RefusedExactly(env, evs[..n]);
      hide Bounded;
      NextBounded(env, Run(env, FRESH, evs[..n]), evs[n]);
      forall i | 0 <= i < n ensures evs[..n][..i] == evs[..i] && evs[..n][i] == evs[i] {}
      BoundedAllows(Run(env, FRESH, evs));
    }
  }

  lemma BoundedAllows(st: AgentState)
    requires Bounded(st, [], [])
    ensures CommitAllowed(st.tailer, st.batchOffsets)
  {
  }

  /** Every poll of the run starts with no safe offset left over. */
  ghost predicate EmptyStarts(env: Env, evs: seq<Event>) {
    forall i | 0 <= i < |evs| && evs[i].Polled? :: Run(env, FRESH, evs[..i]).batchOffsets == map[]
  }

  /** So commits are never refused, whatever happens to the files, when each poll starts with no
      safe offset left over. */
  lemma NeverRefusedThoughShrinking(env: Env, evs: seq<Event>)
    requires ValidEnv(env) && EmptyStarts(env, evs)
    ensures var st := Run(env, FRESH, evs); st.refused == 0 && CommitAllowed(st.tailer, st.batchOffsets)
  {
    RefusedExactly(env, evs);
    hide Run;
    forall i | 0 <= i < |evs| && evs[i].Polled? ensures !RefusingPoll(env, Run(env, FRESH, evs[..i]), evs[i].obs, evs[i].now) {
      hide FirstAttempt, ReadNew;
    }
  }

  // ---------------------------------------------------------------- a run that is refused

  function Full(path: string): Observation {
    if path == "a" then Opened(2, true, "a\n", true) else if path == "b" then Opened(4, true, "b\nc\n", true) else Missing
  }

  function Cut(path: string): Observation {
    Opened(0, true, "", true)
  }

  const A := FileLine("a", "a", 2)
  const B := FileLine("b", "b", 2)
  const C := FileLine("b", "c", 4)

  lemma LinesOfA()
    ensures Lines("a", "a\n", 0) == [A] && Stop("a\n", 0) == 2
  {
    var v := "a\n";
    assert LineEnd(v, 0) == 2 && LineEnd(v, 2) == 0 && v[0..2] == "a\n" && LineText("a\n") == "a";
    hide LineEnd, LineText;
    assert Lines("a", v, 2) == [];
  }

  lemma LinesOfB()
    ensures Lines("b", "b\nc\n", 0) == [B, C] && Stop("b\nc\n", 0) == 4
  {
    var w := "b\nc\n";
    assert LineEnd(w, 0) == 2 && LineEnd(w, 2) == 4 && LineEnd(w, 4) == 0;
    assert w[0..2] == "b\n" && w[2..4] == "c\n" && LineText("b\n") == "b" && LineText("c\n") == "c";
    hide LineEnd, LineText;
    assert Lines("b", w, 4) == [];
    assert Lines("b", w, 2) == [C];
  }

  lemma EntryLines()
    ensures !Stacks.IsContinuation(A.text) && !Stacks.IsContinuation(B.text) && !Stacks.IsContinuation(C.text)
  {
  }

  function AfterFull(): Progress {
    Progress(FRESH.(tailer := TailerState(map[], map["a" := 2, "b" := 4])), [], false)
  }

  lemma ReadFull()
    ensures ReadNew(FRESH.tailer, ["a", "b"], Full) == Reading(AfterFull().st.tailer, [A, B, C], [], false)
  {
    LinesOfA();
    LinesOfB();
    hide Lines, Stop;
    var r0 := Reading(FRESH.tailer, [], [], false);
    var r1 := ReadOne(r0, "a", Full("a"));
    var r2 := ReadOne(r1, "b", Full("b"));
    assert [] + [A] == [A] && [A] + [B, C] == [A, B, C];
    assert r1 == Reading(TailerState(map[], map["a" := 2]), [A], [], false);
    assert r2 == Reading(AfterFull().st.tailer, [A, B, C], [], false);
    assert ["a", "b"][1..] == ["b"] && ["b"][1..] == [];
    assert ReadAll(r0, ["a", "b"], Full) == ReadAll(r1, ["b"], Full) == ReadAll(r2, [], Full);
  }

  /** After the first poll: one record in memory, a safe offset for "b", an entry held back for
      each file. */
  predicate Loaded(st: AgentState, now: int) {
    && st.tailer.readOffsets == map["a" := 2, "b" := 4] && st.batchOffsets == map["b" := 2]
    && st.stacks == Stacks.StackState(map["a" := A, "b" := C], map["a" := now, "b" := now])
    && |st.batch| == 1 && st.pendingBatch == ""
  }

  lemma LoadedFeed(env: Env, now: int)
    requires env.batchSize == 2 && forall line, t, k :: Decide(env.settings, line, t, k).0.Keep?
    ensures Loaded(FeedLines(env, AfterFull(), [A, B, C], now).st, now)
    ensures FeedLines(env, AfterFull(), [A, B, C], now).st.writes == 0
  {
    hide AddLine, Process, FeedLines, Decide;
    EntryLines();
    FeedThree(env, AfterFull(), A, B, C, now);
    var g0 := AfterFull();
    HeldBack(env, g0, A, now);
    var g1 := g0.(st := Holding(g0.st, A, now));
    HeldBack(env, g1, B, now);
    var g2 := g1.(st := Holding(g1.st, B, now));
    HeldBack(env, g2, C, now);
    var st3 := Holding(g2.st, C, now);
    assert st3.stacks == Stacks.StackState(map["a" := A, "b" := C], map["a" := now, "b" := now]);
    OneRecord(env, g2.(st := st3), B, now);
  }

  lemma OneRecord(env: Env, g: Progress, line: FileLine, now: int)
    requires env.batchSize == 2 && g.st.batch == [] && g.st.batchOffsets == map[] && g.st.pendingBatch == ""
    requires Decide(env.settings, line, now, g.st.drawn).0.Keep?
    ensures var s := Process(env, g, line, now).st;
            && s.tailer == g.st.tailer && s.stacks == g.st.stacks && s.batchOffsets == map[line.path := line.endOffset]
            && |s.batch| == 1 && s.pendingBatch == "" && s.writes == g.st.writes
  {
    hide Decide, FlushBatch, Done;
  }

  lemma LoadedPoll(env: Env, now: int)
    requires env.files == ["a", "b"] && env.batchSize == 2 && forall line, t, k :: Decide(env.settings, line, t, k).0.Keep?
    ensures var st := Poll(env, FRESH, Full, now).st; Loaded(st, now) && st.writes == 0
  {
    hide Decide, FeedLines, ReadNew, Commit;
    ReadFull();
    LoadedFeed(env, now);
    var g := FeedLines(env, AfterFull(), [A, B, C], now);
    assert Resets(env, AfterFull(), [], now) == AfterFull();
    assert ["a", "b"][1..] == ["b"] && ["b"][1..] == [];
    assert IdleOne(env, g, "a", now) == g && IdleOne(env, g, "b", now) == g;
    assert Idles(env, g, ["a", "b"], now) == Idles(env, g, ["b"], now) == Idles(env, g, [], now) == g;
  }

  lemma ReadCut(t: TailerState)
    requires t.readOffsets == map["a" := 2, "b" := 4]
    ensures ReadNew(t, ["a", "b"], Cut).resets == ["a", "b"]
    ensures ReadNew(t, ["a", "b"], Cut).tailer.readOffsets == map["a" := 0, "b" := 0]
  {
    var r0 := Reading(t, [], [], false);
    var r1 := ReadOne(r0, "a", Cut("a"));
    var r2 := ReadOne(r1, "b", Cut("b"));
    assert Stop("", 0) == 0;
    assert r1.tailer.readOffsets == map["a" := 0, "b" := 4] && r1.resets == [] + ["a"] == ["a"];
    assert r2.tailer.readOffsets == map["a" := 0, "b" := 0] && r2.resets == ["a"] + ["b"] == ["a", "b"];
    hide ReadOne;
    assert ["a", "b"][1..] == ["b"] && ["b"][1..] == [];
    assert ReadAll(r0, ["a", "b"], Cut) == ReadAll(r1, ["b"], Cut) == ReadAll(r2, [], Cut);
  }

  lemma CutIsRefusing(env: Env, st: AgentState, now: int, later: int)
    requires env.files == ["a", "b"] && env.batchSize == 2 && forall line, t, k :: Decide(env.settings, line, t, k).0.Keep?
    requires Loaded(st, now) && env.write(st.writes).WriteDone?
    ensures RefusingPoll(env, st, Cut, later)
  {
    hide Decide, ReadNew;
    ReadCut(st.tailer);
    var s := st.(tailer := ReadNew(st.tailer, env.files, Cut).tailer);
    assert FirstAttempt(env, s, ["a", "b"], later, |s.batch|, s.drawn, s.writes) == 0;
    assert LeftBehind(s, ["a", "b"][1]);
  }

  /** Such a run: a flush whose write fails leaves a safe offset over, both files are cut to
      nothing before the next poll, and the entry held back for the first one makes the agent try
      to commit the offset of the second. */
  lemma TwoCutFilesAreRefused(env: Env, now: int, later: int)
    requires env.files == ["a", "b"] && env.batchSize == 2
    requires forall line, t, k :: Decide(env.settings, line, t, k).0.Keep?
    requires env.write(0).WriteFailed? && env.write(1).WriteDone?
    ensures Run(env, FRESH, [Polled(now, Full), Flushed, Polled(later, Cut)]).refused > 0
  {
    hide Decide, Poll, RefusingPoll;
    var evs := [Polled(now, Full), Flushed, Polled(later, Cut)];
    assert evs[..2] == [Polled(now, Full), Flushed] && evs[..2][..1] == [Polled(now, Full)] && evs[..1][..0] == [];
    LoadedPoll(env, now);
    var st1 := Poll(env, FRESH, Full, now).st;
    assert Run(env, FRESH, [Polled(now, Full)]) == st1;
    FailedFlush(env, st1);
    var st2 := st1.(writes := 1);
    assert Run(env, FRESH, evs[..2]) == st2 by { hide FlushBatch; }
    CutIsRefusing(env, st2, now, later);
    RefusedExactly(env, evs);
    assert evs[2] == Polled(later, Cut) && RefusingPoll(env, Run(env, FRESH, evs[..2]), evs[2].obs, evs[2].now);
  }
}
