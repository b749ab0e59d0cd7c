/**
 The small steps of the agent, and the principle that whatever every small step
 keeps is kept by polls, flushes and the shutdown. Nothing is assumed here
 about what a poll sees: files may shrink, vanish or fail to open.
 */
module AgentSteps {
  import BatchStores
  import Names
  import Stacks
  import opened Tailing
  import opened Agents
  import opened Processing

  datatype Micro =
    | Take(line: FileLine)
    | Save
    | Put
    | Clear
    | Shift(readOffsets: Offsets, stacks: Stacks.StackState, batchOffsets: map<string, int>, released: seq<FileLine>)

  predicate Enabled(st: AgentState, m: Micro) {
    match m
    case Take(_) => true
    case Save => st.batch == [] || st.pendingBatch != ""
    case Put => st.batch != [] && st.pendingBatch == ""
    case Clear => st.batchOffsets == map[]
    case Shift(_, _, batchOffsets, _) => st.batchOffsets != map[] ==> batchOffsets != map[]
  }

  function Do(env: Env, now: int, st: AgentState, m: Micro): AgentState {
    match m
    case Take(line) => Record(env, st, line, now)
    case Save => Commit(env, st).0
    case Put => WritePending(env, st).0
    case Clear => st.(batch := [], pendingBatch := "", written := 0)
    case Shift(readOffsets, stacks, batchOffsets, released) =>
      st.(tailer := st.tailer.(readOffsets := readOffsets), stacks := stacks,
          batchOffsets := batchOffsets, released := released)
  }

  /** Every small step at time `now` keeps `I`. */
  ghost predicate Closed(env: Env, now: int, I: AgentState -> bool) {
    forall st, m | I(st) && Enabled(st, m) :: I(Do(env, now, st, m))
  }

  lemma By(env: Env, now: int, I: AgentState -> bool, st: AgentState, m: Micro)
    requires Closed(env, now, I) && I(st) && Enabled(st, m)
    ensures I(Do(env, now, st, m))
  {
  }

  lemma SaveIs(env: Env, st: AgentState)
    ensures Commit(env, st).1 ==> Commit(env, st).0.batchOffsets == map[]
    ensures Commit(env, st).0.pendingBatch == st.pendingBatch && Commit(env, st).0.batch == st.batch
  {
    hide CommitAllowed, Candidate;
  }

  lemma PutIs(env: Env, st: AgentState)
    ensures WritePending(env, st).1 ==> WritePending(env, st).0.pendingBatch != ""
  {
    if env.write(st.writes).WriteDone? { BatchStores.NewNameEnds(env.write(st.writes)); }
    hide BatchStores.Publish, Names.NewBatchName;
  }

  lemma CommitBatchKeeps(env: Env, now: int, I: AgentState -> bool, st: AgentState)
    requires Closed(env, now, I) && I(st) && st.pendingBatch != ""
    ensures I(CommitBatch(env, st).st)
  {
    hide Closed, Commit;
    By(env, now, I, st, Save);
    SaveIs(env, st);
    if Commit(env, st).1 { By(env, now, I, Commit(env, st).0, Clear); }
  }

  lemma FlushKeeps(env: Env, now: int, I: AgentState -> bool, st: AgentState)
    requires Closed(env, now, I) && I(st)
    ensures I(FlushBatch(env, st).st)
  {
    hide Closed, Commit, WritePending, CommitBatch;
    if st.batch == [] {
      By(env, now, I, st, Save);
    } else if st.pendingBatch == "" {
      By(env, now, I, st, Put);
      PutIs(env, st);
      if WritePending(env, st).1 { CommitBatchKeeps(env, now, I, WritePending(env, st).0); }
    } else {
      CommitBatchKeeps(env, now, I, st);
    }
  }

  lemma ProcessKeeps(env: Env, now: int, I: AgentState -> bool, g: Progress, line: FileLine)
    requires Closed(env, now, I) && I(g.st)
    ensures I(Process(env, g, line, now).st)
  {
    hide Closed, Record, FlushBatch;
    By(env, now, I, g.st, Take(line));
    FlushKeeps(env, now, I, Record(env, g.st, line, now));
  }

  lemma ShiftKeeps(env: Env, now: int, I: AgentState -> bool, st: AgentState, m: Micro, to: AgentState)
    requires Closed(env, now, I) && I(st) && m.Shift? && Enabled(st, m) && to == Do(env, now, st, m)
    ensures I(to)
  {
    By(env, now, I, st, m);
  }

  lemma StacksKeep(env: Env, now: int, I: AgentState -> bool, st: AgentState, stacks: Stacks.StackState, released: seq<FileLine>)
    requires Closed(env, now, I) && I(st)
    ensures I(st.(stacks := stacks, released := released)) && I(st.(stacks := stacks))
  {
    hide Closed;
    ShiftKeeps(env, now, I, st, Shift(st.tailer.readOffsets, stacks, st.batchOffsets, released),
               st.(stacks := stacks, released := released));
    ShiftKeeps(env, now, I, st, Shift(st.tailer.readOffsets, stacks, st.batchOffsets, st.released), st.(stacks := stacks));
  }

  lemma {:induction false} ProcessAllKeeps(env: Env, now: int, I: AgentState -> bool, g: Progress, lines: seq<FileLine>)
    requires Closed(env, now, I) && I(g.st)
    ensures I(ProcessAll(env, g, lines, now).st)
    decreases |lines|
  {
    hide Closed, Process;
    if lines != [] {
      ProcessKeeps(env, now, I, g, lines[0]);
      ProcessAllKeeps(env, now, I, Process(env, g, lines[0], now), lines[1..]);
    }
  }

  lemma {:induction false} FeedKeeps(env: Env, now: int, I: AgentState -> bool, g: Progress, lines: seq<FileLine>)
    requires Closed(env, now, I) && I(g.st)
    ensures I(FeedLines(env, g, lines, now).st)
    decreases |lines|
  {
    hide Closed, ProcessAll, Stacks.Add;
    if lines != [] {
      var (stacks, completed) := Stacks.Add(g.st.stacks, lines[0], now);
      StacksKeep(env, now, I, g.st, stacks, []);
      ProcessAllKeeps(env, now, I, g.(st := g.st.(stacks := stacks)), completed);
      FeedKeeps(env, now, I, AddLine(env, g, lines[0], now), lines[1..]);
    }
  }

  lemma ResetOneKeeps(env: Env, now: int, I: AgentState -> bool, g: Progress, path: string)
    requires Closed(env, now, I) && I(g.st)
    ensures I(ResetOne(env, g, path, now).st)
  {
    hide Closed, Process, Stacks.Flush;
    var offsets := g.st.batchOffsets[path := 0];
    var (stacks, pending) := Stacks.Flush(g.st.stacks, path);
    var st := g.st.(batchOffsets := offsets, stacks := stacks);
    ShiftKeeps(env, now, I, g.st, Shift(g.st.tailer.readOffsets, stacks, offsets, g.st.released), st);
    if pending.Some? { ProcessKeeps(env, now, I, g.(st := st), pending.value.(endOffset := 0)); }
  }

  lemma {:induction false} ResetsKeep(env: Env, now: int, I: AgentState -> bool, g: Progress, paths: seq<string>)
    requires Closed(env, now, I) && I(g.st)
    ensures I(Resets(env, g, paths, now).st)
    decreases |paths|
  {
    hide Closed, ResetOne;
    if paths != [] {
      ResetOneKeeps(env, now, I, g, paths[0]);
      ResetsKeep(env, now, I, ResetOne(env, g, paths[0], now), paths[1..]);
    }
  }

  lemma IdleOneKeeps(env: Env, now: int, I: AgentState -> bool, g: Progress, path: string)
    requires Closed(env, now, I) && I(g.st)
    ensures I(IdleOne(env, g, path, now).st)
  {
    hide Closed, Process, Stacks.FlushIdle;
    var (stacks, pending) := Stacks.FlushIdle(g.st.stacks, path, now, IdleFor(env));
    if pending.Some? {
      var released := g.st.released + [pending.value];
      StacksKeep(env, now, I, g.st, stacks, released);
      ProcessKeeps(env, now, I, g.(st := g.st.(stacks := stacks, released := released)), pending.value);
    } else {
      StacksKeep(env, now, I, g.st, stacks, []);
    }
  }

  lemma {:induction false} IdlesKeep(env: Env, now: int, I: AgentState -> bool, g: Progress, files: seq<string>)
    requires Closed(env, now, I) && I(g.st)
    ensures I(Idles(env, g, files, now).st)
    decreases |files|
  {
    hide Closed, IdleOne;
    if files != [] {
      IdleOneKeeps(env, now, I, g, files[0]);
      IdlesKeep(env, now, I, IdleOne(env, g, files[0], now), files[1..]);
    }
  }

  lemma {:induction false} ReadKeepsOffsets(r: Reading, files: seq<string>, obs: string -> Observation)
    ensures ReadAll(r, files, obs).tailer.offsets == r.tailer.offsets
    decreases |files|
  {
    if files != [] { ReadKeepsOffsets(ReadOne(r, files[0], obs(files[0])), files[1..], obs); }
  }

  /** Whatever every small step keeps, a poll keeps, whatever it sees. */
  lemma PollKeeps(env: Env, now: int, I: AgentState -> bool, st: AgentState, obs: string -> Observation)
    requires Closed(env, now, I) && I(st)
    ensures I(Poll(env, st, obs, now).st)
  {
    hide Closed, Resets, FeedLines, Idles, Commit, ReadAll;
    var r := ReadNew(st.tailer, env.files, obs);
    ReadKeepsOffsets(Reading(st.tailer, [], [], false), env.files, obs);
    var read := st.(tailer := r.tailer);
    ShiftKeeps(env, now, I, st, Shift(r.tailer.readOffsets, st.stacks, st.batchOffsets, st.released), read);
    var g1 := Resets(env, Progress(read, [], r.failed), r.resets, now);
    ResetsKeep(env, now, I, Progress(read, [], r.failed), r.resets);
    var g2 := FeedLines(env, g1, r.lines, now);
    FeedKeeps(env, now, I, g1, r.lines);
    var g3 := Idles(env, g2, env.files, now);
    IdlesKeep(env, now, I, g2, env.files);
    if g3.st.batch == [] { By(env, now, I, g3.st, Save); }
  }

  lemma FlushOneKeeps(env: Env, now: int, I: AgentState -> bool, g: Progress, path: string)
    requires Closed(env, now, I) && I(g.st)
    ensures I(FlushOne(env, g, path, now).st)
  {
    hide Closed, Process, Stacks.Flush;
    var (stacks, pending) := Stacks.Flush(g.st.stacks, path);
    if pending.Some? {
      var released := g.st.released + [pending.value];
      StacksKeep(env, now, I, g.st, stacks, released);
      ProcessKeeps(env, now, I, g.(st := g.st.(stacks := stacks, released := released)), pending.value);
    } else {
      StacksKeep(env, now, I, g.st, stacks, []);
    }
  }

  lemma {:induction false} FlushOpenKeeps(env: Env, now: int, I: AgentState -> bool, g: Progress, files: seq<string>)
    requires Closed(env, now, I) && I(g.st)
    ensures I(FlushOpen(env, g, files, now).st)
    decreases |files|
  {
    hide Closed, FlushOne;
    if files != [] && !g.failed {
      FlushOneKeeps(env, now, I, g, files[0]);
      FlushOpenKeeps(env, now, I, FlushOne(env, g, files[0], now), files[1..]);
    }
  }

  lemma FlushAllKeeps(env: Env, now: int, I: AgentState -> bool, st: AgentState)
    requires Closed(env, now, I) && I(st)
    ensures I(Flush(env, st, now).st)
  {
    hide Closed, FlushOpen, FlushBatch;
    var g := FlushOpen(env, Progress(st, [], false), env.files, now);
    FlushOpenKeeps(env, now, I, Progress(st, [], false), env.files);
    FlushKeeps(env, now, I, g.st);
  }

  // ---------------------------------------------------------------- what flushing and processing leave alone

  /** From `a` to `b` only the disk, the committed offsets and the batch have changed, and a
      commit was refused only if the safe offsets of `a` are not allowed. */
  predicate AfterFlush(a: AgentState, b: AgentState) {
    && b.stacks == a.stacks && b.tailer.readOffsets == a.tailer.readOffsets
    && b.released == a.released && b.log == a.log && b.crashed == a.crashed
    && (b.batchOffsets == a.batchOffsets || b.batchOffsets == map[])
    && (CommitAllowed(a.tailer, a.batchOffsets) ==> b.refused == a.refused)
  }

  lemma CommitFrame(env: Env, st: AgentState)
    ensures AfterFlush(st, Commit(env, st).0)
    ensures Commit(env, st).1 ==> Commit(env, st).0.batchOffsets == map[]
  {
    hide CommitAllowed, Candidate;
  }

  lemma WriteFrame(env: Env, st: AgentState)
    ensures AfterFlush(st, WritePending(env, st).0)
    ensures WritePending(env, st).0.tailer == st.tailer && WritePending(env, st).0.batchOffsets == st.batchOffsets
    ensures WritePending(env, st).0.batch == st.batch
  {
    hide CommitAllowed, BatchStores.Publish, Names.NewBatchName;
  }

  /** A flush that succeeds leaves no safe offset and no record behind. */
  lemma FlushFrame(env: Env, st: AgentState)
    ensures AfterFlush(st, FlushBatch(env, st).st)
    ensures FlushBatch(env, st).ok ==> FlushBatch(env, st).st.batchOffsets == map[] && FlushBatch(env, st).st.batch == []
  {
    hide CommitAllowed, Commit, WritePending;
    CommitFrame(env, st);
    SaveIs(env, st);
    if st.batch != [] && st.pendingBatch == "" {
      WriteFrame(env, st);
      CommitFrame(env, WritePending(env, st).0);
    }
  }

  /** Deciding an entry adds it to the log and moves its file's offset. */
  lemma RecordFrame(env: Env, st: AgentState, line: FileLine, now: int)
    ensures var s, d := Record(env, st, line, now), Decide(env.settings, line, now, st.drawn).0;
            && s.tailer == st.tailer && s.stacks == st.stacks && s.released == st.released && s.trail == st.trail
            && s.batchOffsets == st.batchOffsets[line.path := line.endOffset]
            && s.refused == st.refused && s.crashed == st.crashed && s.settled == st.settled && s.commits == st.commits
            && s.dropped == st.dropped
            && s.log == st.log + [Entry(Done(st, line.path), line, now, st.drawn, d)]
            && s.fates == st.fates + [if d.Keep? then InMemory else NoRecord]
  {
    hide Decide;
  }

  /** Processing an entry adds it to the log and may flush. */
  lemma ProcessFrame(env: Env, g: Progress, line: FileLine, now: int)
    ensures var s := Record(env, g.st, line, now);
            && AfterFlush(s, Process(env, g, line, now).st)
            && s.tailer == g.st.tailer && s.stacks == g.st.stacks && s.released == g.st.released
            && s.batchOffsets == g.st.batchOffsets[line.path := line.endOffset]
            && s.refused == g.st.refused && s.crashed == g.st.crashed && s.settled == g.st.settled && s.commits == g.st.commits
            && s.log == g.st.log + [Entry(Done(g.st, line.path), line, now, g.st.drawn,
                                                        Decide(env.settings, line, now, g.st.drawn).0)]
  {
    hide FlushBatch, Decide, CommitAllowed, AfterFlush, Done;
    RecordFrame(env, g.st, line, now);
    FlushFrame(env, Record(env, g.st, line, now));
    assert AfterFlush(Record(env, g.st, line, now), Process(env, g, line, now).st) by { AfterSelf(Record(env, g.st, line, now)); }
    hide Record;
  }

  lemma AfterSelf(st: AgentState)
    ensures AfterFlush(st, st)
  {
  }

  /** A batch is flushed as soon as it is full: unless a flush failed, fewer than a batch's
      worth of records is left in memory. */
  lemma BatchStaysBelowSize(env: Env, st: AgentState, line: FileLine, now: int)
    requires ValidEnv(env) && |st.batch| < env.batchSize && ProcessLine(env, st, line, now).ok
    ensures |ProcessLine(env, st, line, now).st.batch| < env.batchSize
  {
    hide FlushBatch, Decide;
    FlushFrame(env, Record(env, st, line, now));
  }
}
