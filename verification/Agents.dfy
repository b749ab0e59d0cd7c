/**
 The agent: polls the tailer, assembles and processes entries, fills a batch,
 writes it to the disk queue and only then commits the offsets behind it.

 Each method is proved against a function on `AgentState`. The state also keeps
 a history that the program does not have: the entries processed and where their
 records are, the commits carried out, the records dropped, and a snapshot of
 what is durable after every durable effect, so that a crash can be placed
 between any two of them.
 */
module Agents {
  import opened Tailing
  import Stacks
  import opened Schema
  import opened Names
  import opened Eviction
  import opened BatchStores
  import opened Processing

  const DEFAULT_IDLE := 5 * 1000 * MILLISECOND

  /** The configuration, and the outcomes of the n-th batch write and the n-th offsets save. */
  datatype Env = Env(
    files: seq<string>, batchSize: int, flushInterval: int, settings: Settings, maxBytes: int,
    write: nat -> WriteIO, saveOk: nat -> bool)

  /** What the loader guarantees of a configuration. */
  predicate ValidEnv(env: Env) {
    env.batchSize >= 1 && Distinct(env.files)
  }

  /** One processed entry: the bytes of its file it stands for begin at `from`; it was decided at
      `now`, when `drawn` random draws had been used. */
  datatype Entry = Entry(from: int, line: FileLine, now: int, drawn: nat, decision: Decision)

  /** Where the record of an entry is: there is none, in the batch but in no batch file, in a
      published batch, dropped, or lost with a crash. */
  datatype Fate = NoRecord | InMemory | InQueue | Dropped | Lost

  /** What becomes of the records in memory. */
  function Moved(fates: seq<Fate>, to: Fate): (r: seq<Fate>)
    ensures |r| == |fates| && forall i | 0 <= i < |r| :: r[i] == if fates[i] == InMemory then to else fates[i]
  {
    seq(|fates|, i requires 0 <= i < |fates| => if fates[i] == InMemory then to else fates[i])
  }

  /** What survives a crash, and the history that goes with it; `waiting` is the late part of
      `unsaved`. */
  datatype Durable = Durable(
    offsets: Offsets, disk: Disk,
    log: seq<Entry>, fates: seq<Fate>, commits: seq<OffsetsCommit>, late: seq<Log>, dropped: seq<Log>, crashed: seq<Log>, lateCrashed: seq<Log>,
    unsaved: seq<Log>, waiting: seq<Log>)

  datatype AgentState = AgentState(
    tailer: TailerState, stacks: Stacks.StackState,
    batch: seq<Log>, batchOffsets: map<string, int>, pendingBatch: string,
    filteredByLevel: nat, filteredBySampling: nat,
    disk: Disk, writes: nat, saves: nat, drawn: nat,
    // history: the entries and where their records are; the commits carried out, and the safe
    // offsets they settled since the start
    log: seq<Entry>, fates: seq<Fate>, commits: seq<OffsetsCommit>, settled: map<string, int>, written: nat, late: seq<Log>, dropped: seq<Log>, crashed: seq<Log>, lateCrashed: seq<Log>,
    drainedByLevel: nat, drainedBySampling: nat,
    released: seq<FileLine>, refused: nat, trail: seq<Durable>)

  /** The offset up to which the lines of `p` have been processed. */
  function Done(st: AgentState, p: string): int {
    if p in st.batchOffsets then st.batchOffsets[p]
    else if p in st.settled then st.settled[p]
    else Get(st.tailer.offsets, p)
  }

  /** The records of the batch that are in no batch file. */
  function Unsaved(st: AgentState): seq<Log> {
    if st.written <= |st.batch| then st.batch[st.written..] else []
  }

  /** Those of them that came in while a batch file was waiting for its commit. */
  function Waiting(st: AgentState): seq<Log> {
    if st.pendingBatch == "" then [] else Unsaved(st)
  }

  function Snapshot(st: AgentState): Durable {
    Durable(st.tailer.offsets, st.disk, st.log, st.fates, st.commits, st.late, st.dropped, st.crashed, st.lateCrashed, Unsaved(st), Waiting(st))
  }

  function Mark(st: AgentState): AgentState {
    st.(trail := st.trail + [Snapshot(st)])
  }

  // ---------------------------------------------------------------- steps

  /** The safe offsets are committed and forgotten; what is in no batch file goes with them. */
  function Forgotten(st: AgentState): AgentState {
    st.(batchOffsets := map[], dropped := st.dropped + Unsaved(st), written := |st.batch|,
        fates := Moved(st.fates, Dropped), settled := st.settled + st.batchOffsets,
        commits := st.commits + [OffsetsCommit(st.tailer.readOffsets, st.batchOffsets)])
  }

  function Commit(env: Env, st: AgentState): (AgentState, bool) {
    if st.batchOffsets == map[] then (st, true)
    else if !CommitAllowed(st.tailer, st.batchOffsets) then (st.(saves := st.saves + 1, refused := st.refused + 1), false)
    else if !env.saveOk(st.saves) then (st.(saves := st.saves + 1), false)
    else
      (Mark(Forgotten(st.(tailer := st.tailer.(offsets := Candidate(st.tailer, st.batchOffsets)), saves := st.saves + 1))), true)
  }

  function WritePending(env: Env, st: AgentState): (AgentState, bool) {
    var io := env.write(st.writes);
    var st1 := st.(writes := st.writes + 1, disk := Publish(st.disk, env.maxBytes, st.batch, io));
    if io.WriteFailed? then (st1, false)
    else (Mark(st1.(pendingBatch := NewBatchName(io.now, io.random), written := |st.batch|,
                    fates := Moved(st.fates, InQueue))), true)
  }

  datatype Step = Step(st: AgentState, logs: seq<Log>, ok: bool)

  /** Committing behind a written batch, which then leaves memory. */
  function CommitBatch(env: Env, st: AgentState): Step {
    var (st1, ok) := Commit(env, st);
    if !ok then Step(st1, [], false) else Step(st1.(batch := [], pendingBatch := "", written := 0), st1.batch, true)
  }

  function FlushBatch(env: Env, st: AgentState): Step {
    if st.batch == [] then
      var (st1, ok) := Commit(env, st);
      Step(st1, [], ok)
    else
      var (st1, wrote) := if st.pendingBatch == "" then WritePending(env, st) else (st, true);
      if !wrote then Step(st1, [], false) else CommitBatch(env, st1)
  }

  /** The books after one decision: the offset moves on, and a kept record joins the batch. */
  function Note(st: AgentState, line: FileLine, now: int, drawn: nat, decision: Decision): AgentState {
    var st1 := st.(batchOffsets := st.batchOffsets[line.path := line.endOffset],
                   log := st.log + [Entry(Done(st, line.path), line, now, drawn, decision)],
                   fates := st.fates + [if decision.Keep? then InMemory else NoRecord]);
    match decision
    case FilteredByLevel => st1.(filteredByLevel := st.filteredByLevel + 1)
    case FilteredBySampling => st1.(filteredBySampling := st.filteredBySampling + 1)
    case Keep(record) =>
      st1.(batch := st.batch + [record], late := if st.pendingBatch == "" then st.late else st.late + [record])
  }

  /** Processing up to the point where a full batch would be flushed. */
  function Record(env: Env, st: AgentState, line: FileLine, now: int): AgentState {
    var (decision, drawn) := Decide(env.settings, line, now, st.drawn);
    Note(st.(drawn := drawn), line, now, st.drawn, decision)
  }

  function ProcessLine(env: Env, st: AgentState, line: FileLine, now: int): Step {
    var st1 := Record(env, st, line, now);
    if st1.batch == st.batch || |st1.batch| < env.batchSize then Step(st1, [], true)
    else FlushBatch(env, st1)
  }

  // ---------------------------------------------------------------- one poll

  /** A poll under way: what it has returned so far. */
  datatype Progress = Progress(st: AgentState, logs: seq<Log>, failed: bool)

  function Process(env: Env, g: Progress, line: FileLine, now: int): Progress {
    var r := ProcessLine(env, g.st, line, now);
    Progress(r.st, g.logs + r.logs, g.failed || !r.ok)
  }

  function ProcessAll(env: Env, g: Progress, lines: seq<FileLine>, now: int): Progress
    decreases |lines|
  {
    if lines == [] then g else ProcessAll(env, Process(env, g, lines[0], now), lines[1..], now)
  }

  function AddLine(env: Env, g: Progress, line: FileLine, now: int): Progress {
    var (stacks, completed) := Stacks.Add(g.st.stacks, line, now);
    ProcessAll(env, g.(st := g.st.(stacks := stacks)), completed, now)
  }

  function FeedLines(env: Env, g: Progress, lines: seq<FileLine>, now: int): Progress
    decreases |lines|
  {
    if lines == [] then g else FeedLines(env, AddLine(env, g, lines[0], now), lines[1..], now)
  }

  function ResetOne(env: Env, g: Progress, path: string, now: int): Progress {
    var st := g.st.(batchOffsets := g.st.batchOffsets[path := 0]);
    var (stacks, pending) := Stacks.Flush(st.stacks, path);
    var g1 := g.(st := st.(stacks := stacks));
    if pending.Some? then Process(env, g1, pending.value.(endOffset := 0), now) else g1
  }

  function Resets(env: Env, g: Progress, paths: seq<string>, now: int): Progress
    decreases |paths|
  {
    if paths == [] then g else Resets(env, ResetOne(env, g, paths[0], now), paths[1..], now)
  }

  function IdleFor(env: Env): int {
    if env.flushInterval <= 0 then DEFAULT_IDLE else env.flushInterval
  }

  function IdleOne(env: Env, g: Progress, path: string, now: int): Progress {
    var (stacks, pending) := Stacks.FlushIdle(g.st.stacks, path, now, IdleFor(env));
    if pending.Some? then
      Process(env, g.(st := g.st.(stacks := stacks, released := g.st.released + [pending.value])), pending.value, now)
    else g.(st := g.st.(stacks := stacks))
  }

  function Idles(env: Env, g: Progress, files: seq<string>, now: int): Progress
    decreases |files|
  {
    if files == [] then g else Idles(env, IdleOne(env, g, files[0], now), files[1..], now)
  }

  function Finish(env: Env, g: Progress): Progress {
    if g.st.batch == [] then
      var (st, ok) := Commit(env, g.st);
      g.(st := st, failed := g.failed || !ok)
    else g
  }

  function Poll(env: Env, st: AgentState, obs: string -> Observation, now: int): Progress {
    var r := ReadNew(st.tailer, env.files, obs);
    var g := Progress(st.(tailer := r.tailer), [], r.failed);
    Finish(env, Idles(env, FeedLines(env, Resets(env, g, r.resets, now), r.lines, now), env.files, now))
  }

  function FlushOne(env: Env, g: Progress, path: string, now: int): Progress {
    var (stacks, pending) := Stacks.Flush(g.st.stacks, path);
    if pending.Some? then
      Process(env, g.(st := g.st.(stacks := stacks, released := g.st.released + [pending.value])), pending.value, now)
    else g.(st := g.st.(stacks := stacks))
  }

  /** The shutdown flush: every held-back entry, then the batch; stops at the first error. */
  function FlushOpen(env: Env, g: Progress, files: seq<string>, now: int): Progress
    decreases |files|
  {
    if files == [] || g.failed then g
    else
      FlushOpen(env, FlushOne(env, g, files[0], now), files[1..], now)
  }

  function Flush(env: Env, st: AgentState, now: int): Progress {
    var g := FlushOpen(env, Progress(st, [], false), env.files, now);
    if g.failed then g
    else
      var r := FlushBatch(env, g.st);
      Progress(r.st, g.logs + r.logs, !r.ok)
  }

  /** The driver takes the filter counters for its log line and starts them again. */
  function Drain(st: AgentState): AgentState {
    st.(filteredByLevel := 0, filteredBySampling := 0,
        drainedByLevel := st.drainedByLevel + st.filteredByLevel,
        drainedBySampling := st.drainedBySampling + st.filteredBySampling)
  }

  // ---------------------------------------------------------------- the program

  /** The history as the program's ghost companion. */
  datatype History = History(
    log: seq<Entry>, fates: seq<Fate>, commits: seq<OffsetsCommit>, settled: map<string, int>, written: nat,
    late: seq<Log>, dropped: seq<Log>, crashed: seq<Log>, lateCrashed: seq<Log>,
    drainedByLevel: nat, drainedBySampling: nat, released: seq<FileLine>, refused: nat, trail: seq<Durable>)

  const NO_HISTORY := History([], [], [], map[], 0, [], [], [], [], 0, 0, [], 0, [])

  class Agent {
    const env: Env
    const tailer: Tailer
    const stacks: Stacks.StackAssembler
    const processor: LogProcessor
    const store: BatchStore
    var batch: seq<Log>
    var batchOffsets: map<string, int>
    var pendingBatch: string
    var filteredByLevel: nat
    var filteredBySampling: nat
    var writes: nat
    var saves: nat
    ghost var history: History

    ghost predicate Valid() {
      tailer.files == env.files && processor.settings == env.settings && store.maxBytes == env.maxBytes
    }

    ghost function State(): AgentState
      reads this, tailer, stacks, processor, store
    {
      AgentState(tailer.State(), stacks.State(), batch, batchOffsets, pendingBatch,
                 filteredByLevel, filteredBySampling, store.State(), writes, saves, processor.drawn,
                 history.log, history.fates, history.commits, history.settled, history.written,
                 history.late, history.dropped, history.crashed, history.lateCrashed,
                 history.drainedByLevel, history.drainedBySampling, history.released, history.refused, history.trail)
    }

    /** An agent on the offsets and the queue it finds. */
    constructor (env: Env, tailer: Tailer, store: BatchStore)
      requires tailer.files == env.files && store.maxBytes == env.maxBytes
      ensures Valid() && this.env == env && this.tailer == tailer && this.store == store
      ensures fresh(stacks) && fresh(processor)
      ensures State() == Start(TailerState(tailer.offsets, tailer.readOffsets), store.State())
    {
      this.env := env;
      this.tailer := tailer;
      this.store := store;
      stacks := new Stacks.StackAssembler();
      processor := new LogProcessor(env.settings);
      batch, batchOffsets, pendingBatch := [], map[], "";
      filteredByLevel, filteredBySampling, writes, saves := 0, 0, 0, 0;
      history := NO_HISTORY;
      new;
      history := history.(trail := [Snapshot(State())]);
    }

    ghost method MarkDurable()
      modifies `history
      ensures State() == Mark(old(State()))
    {
      history := history.(trail := history.trail + [Snapshot(State())]);
    }

    method CommitOffsets() returns (ok: bool)
      requires Valid()
      modifies `batchOffsets, `saves, `history, tailer
      ensures (State(), ok) == Commit(env, old(State()))
    {
      hide Candidate, CommitAllowed, Mark, BatchStore.State, Stacks.StackAssembler.State;
      if batchOffsets == map[] {
        return true;
      }
      ghost var allowed := CommitAllowed(tailer.State(), batchOffsets);
      ok := tailer.CommitOffsets(batchOffsets, env.saveOk(saves));
      saves := saves + 1;
      if ok {
        ForgetOffsets();
      } else if !allowed {
        history := history.(refused := history.refused + 1);
      }
    }

    /** The safe offsets are committed; what is in no batch file goes with them. */
    method ForgetOffsets()
      modifies `batchOffsets, `history
      ensures State() == Mark(Forgotten(old(State())))
    {
      hide BatchStore.State, Stacks.StackAssembler.State, Mark, Moved;
      history := history.(dropped := history.dropped + Unsaved(State()), written := |batch|,
                          fates := Moved(history.fates, Dropped), settled := history.settled + batchOffsets,
                          commits := history.commits + [OffsetsCommit(tailer.readOffsets, batchOffsets)]);
      batchOffsets := map[];
      MarkDurable();
    }

    method FlushCurrentBatch() returns (logs: seq<Log>, ok: bool)
      requires Valid()
      modifies this, tailer, store
      ensures Step(State(), logs, ok) == FlushBatch(env, old(State()))
    {
      hide Commit, WritePending, CommitBatch;
      if |batch| == 0 {
        ok := CommitOffsets();
        return [], ok;
      }
      if pendingBatch == "" {
        var path := WriteCurrentBatch();
        if path == "" {
          return [], false;
        }
      }
      logs, ok := CommitWrittenBatch();
    }

    method CommitWrittenBatch() returns (logs: seq<Log>, ok: bool)
      requires Valid()
      modifies this, tailer
      ensures Step(State(), logs, ok) == CommitBatch(env, old(State()))
    {
      hide Commit, BatchStore.State, Stacks.StackAssembler.State;
      ok := CommitOffsets();
      if !ok {
        return [], false;
      }
      logs := batch;
      batch, pendingBatch := [], "";
      history := history.(written := 0);
    }

    /** Writes the batch to the queue and remembers the file, unless writing failed. */
    method WriteCurrentBatch() returns (path: string)
      requires Valid()
      modifies `writes, `pendingBatch, `history, store
      ensures (State(), path != "") == WritePending(env, old(State()))
    {
      hide Publish, NewBatchName, Unsaved, Mark, Tailer.State, Stacks.StackAssembler.State;
      var io := env.write(writes);
      writes := writes + 1;
      path := store.WriteBatch(batch, io);
      if io.WriteFailed? {
        return "";
      }
      NewNameEnds(io);
      RememberBatch(path);
    }

    method RememberBatch(path: string)
      modifies `pendingBatch, `history
      ensures State() == Mark(old(State()).(pendingBatch := path, written := |batch|, fates := Moved(old(history.fates), InQueue)))
    {
      hide Mark, Moved, Tailer.State, BatchStore.State, Stacks.StackAssembler.State;
      pendingBatch := path;
      history := history.(fates := Moved(history.fates, InQueue), written := |batch|);
      MarkDurable();
    }

    method ProcessOne(line: FileLine, now: int) returns (logs: seq<Log>, ok: bool)
      requires Valid()
      modifies this, tailer, store, processor
      ensures Step(State(), logs, ok) == ProcessLine(env, old(State()), line, now)
    {
      hide Decide, FlushBatch, Unsaved;
      ghost var drawn := processor.drawn;
      var decision := processor.ProcessDetailed(line, now);
      NoteDecision(line, now, drawn, decision);
      assert State() == Record(env, old(State()), line, now);
      hide Record;
      if !decision.Keep? || |batch| < env.batchSize {
        return [], true;
      }
      logs, ok := FlushCurrentBatch();
    }

    method NoteDecision(line: FileLine, now: int, ghost drawn: nat, decision: Decision)
      modifies `history, `batchOffsets, `batch, `filteredByLevel, `filteredBySampling
      ensures State() == Note(old(State()), line, now, drawn, decision)
    {
      hide Unsaved;
      NoteProgress(line, now, drawn, decision);
      match decision
      case FilteredByLevel => filteredByLevel := filteredByLevel + 1;
      case FilteredBySampling => filteredBySampling := filteredBySampling + 1;
      case Keep(record) => KeepRecord(record);
    }

    method NoteProgress(line: FileLine, now: int, ghost drawn: nat, decision: Decision)
      modifies `history, `batchOffsets
      ensures State() == old(State()).(batchOffsets := old(batchOffsets)[line.path := line.endOffset],
                                       log := old(history.log) + [Entry(Done(old(State()), line.path), line, now, drawn, decision)],
                                       fates := old(history.fates) + [if decision.Keep? then InMemory else NoRecord])
    {
      hide Tailer.State, BatchStore.State, Stacks.StackAssembler.State;
      history := history.(log := history.log + [Entry(Done(State(), line.path), line, now, drawn, decision)],
                          fates := history.fates + [if decision.Keep? then InMemory else NoRecord]);
      batchOffsets := batchOffsets[line.path := line.endOffset];
    }

    method KeepRecord(record: Log)
      modifies `batch, `history
      ensures State() == old(State()).(batch := old(batch) + [record],
                                       late := if pendingBatch == "" then old(history.late) else old(history.late) + [record])
    {
      batch := batch + [record];
      if pendingBatch != "" { history := history.(late := history.late + [record]); }
    }

    method PollFiles(obs: string -> Observation, now: int) returns (logs: seq<Log>, failed: bool)
      requires Valid()
      modifies this, tailer, stacks, store, processor
      ensures Progress(State(), logs, failed) == Poll(env, old(State()), obs, now)
    {
      hide ReadNew, Commit, AddLine, ResetOne, IdleOne;
      var lines, resetPaths, pollFailed := tailer.ReadNewLines(obs);
      logs, failed := [], pollFailed;
      ghost var start := Progress(State(), logs, failed);
      for i := 0 to |resetPaths|
        invariant Resets(env, Progress(State(), logs, failed), resetPaths[i..], now) == Resets(env, start, resetPaths, now)
      {
        assert resetPaths[i..][1..] == resetPaths[i + 1..];
        logs, failed := ResetFile(resetPaths[i], now, logs, failed);
      }
      ghost var fed := Progress(State(), logs, failed);
      for i := 0 to |lines|
        invariant FeedLines(env, Progress(State(), logs, failed), lines[i..], now) == FeedLines(env, fed, lines, now)
      {
        assert lines[i..][1..] == lines[i + 1..];
        logs, failed := AddOne(lines[i], now, logs, failed);
      }
      ghost var idle := Progress(State(), logs, failed);
      for i := 0 to |env.files|
        invariant Idles(env, Progress(State(), logs, failed), env.files[i..], now) == Idles(env, idle, env.files, now)
      {
        assert env.files[i..][1..] == env.files[i + 1..];
        logs, failed := FlushIdleFile(env.files[i], now, logs, failed);
      }
      if |batch| == 0 {
        var ok := CommitOffsets();
        failed := failed || !ok;
      }
    }

    /** A file that shrank starts over; its held-back entry is processed at offset 0. */
    method ResetFile(path: string, now: int, before: seq<Log>, failedBefore: bool) returns (logs: seq<Log>, failed: bool)
      requires Valid()
      modifies this, tailer, stacks, store, processor
      ensures Progress(State(), logs, failed) == ResetOne(env, Progress(old(State()), before, failedBefore), path, now)
    {
      hide ProcessLine, Stacks.Flush;
      logs, failed := before, failedBefore;
      batchOffsets := batchOffsets[path := 0];
      var pending := stacks.FlushPath(path);
      if pending.Some? {
        var persisted, ok := ProcessOne(pending.value.(endOffset := 0), now);
        logs := logs + persisted;
        failed := failed || !ok;
      }
    }

    method FlushIdleFile(path: string, now: int, before: seq<Log>, failedBefore: bool) returns (logs: seq<Log>, failed: bool)
      requires Valid()
      modifies this, tailer, stacks, store, processor
      ensures Progress(State(), logs, failed) == IdleOne(env, Progress(old(State()), before, failedBefore), path, now)
    {
      hide ProcessLine, Stacks.FlushIdle;
      logs, failed := before, failedBefore;
      var pending := stacks.FlushIdlePath(path, now, IdleFor(env));
      if pending.Some? {
        history := history.(released := history.released + [pending.value]);
        var persisted, ok := ProcessOne(pending.value, now);
        logs := logs + persisted;
        failed := failed || !ok;
      }
    }

    /** The inner loop of a poll: one line may complete one entry. */
    method AddOne(line: FileLine, now: int, before: seq<Log>, failedBefore: bool) returns (logs: seq<Log>, failed: bool)
      requires Valid()
      modifies this, tailer, stacks, store, processor
      ensures Progress(State(), logs, failed) == AddLine(env, Progress(old(State()), before, failedBefore), line, now)
    {
      hide ProcessLine;
      logs, failed := before, failedBefore;
      var completed := stacks.AddLine(line, now);
      ghost var start := Progress(State(), logs, failed);
      for i := 0 to |completed|
        invariant ProcessAll(env, Progress(State(), logs, failed), completed[i..], now) == ProcessAll(env, start, completed, now)
      {
        assert completed[i..][1..] == completed[i + 1..];
        var persisted, ok := ProcessOne(completed[i], now);
        logs := logs + persisted;
        failed := failed || !ok;
      }
    }

    method FlushAll(now: int) returns (logs: seq<Log>, failed: bool)
      requires Valid()
      modifies this, tailer, stacks, store, processor
      ensures Progress(State(), logs, failed) == Flush(env, old(State()), now)
    {
      hide ProcessLine, FlushBatch;
      logs, failed := [], false;
      ghost var start := Progress(State(), logs, failed);
      for i := 0 to |env.files|
        invariant !failed
        invariant FlushOpen(env, Progress(State(), logs, failed), env.files[i..], now) == FlushOpen(env, start, env.files, now)
      {
        assert env.files[i..][1..] == env.files[i + 1..];
        var pending := stacks.FlushPath(env.files[i]);
        if pending.Some? {
          history := history.(released := history.released + [pending.value]);
          var persisted, ok := ProcessOne(pending.value, now);
          logs := logs + persisted;
          if !ok {
            failed := true;
            return;
          }
        }
      }
      var persisted, ok := FlushCurrentBatch();
      logs := logs + persisted;
      failed := !ok;
    }

    method DrainFilterCounts() returns (level: nat, sampling: nat)
      modifies `filteredByLevel, `filteredBySampling, `history
      ensures level == old(filteredByLevel) && sampling == old(filteredBySampling)
      ensures State() == Drain(old(State()))
    {
      hide Tailer.State, BatchStore.State, Stacks.StackAssembler.State;
      level, sampling := filteredByLevel, filteredBySampling;
      NoteDrained();
      filteredByLevel, filteredBySampling := 0, 0;
    }

    ghost method NoteDrained()
      modifies `history
      ensures State() == old(State()).(drainedByLevel := old(history.drainedByLevel) + filteredByLevel,
                                       drainedBySampling := old(history.drainedBySampling) + filteredBySampling)
    {
      hide Tailer.State, BatchStore.State, Stacks.StackAssembler.State;
      history := history.(drainedByLevel := history.drainedByLevel + filteredByLevel,
                          drainedBySampling := history.drainedBySampling + filteredBySampling);
    }
  }

  function Start(tailer: TailerState, disk: Disk): AgentState {
    AgentState(tailer, Stacks.EMPTY, [], map[], "", 0, 0, disk, 0, 0, 0, [], [], [], map[], 0, [], [], [], [], 0, 0, [], 0,
               [Durable(tailer.offsets, disk, [], [], [], [], [], [], [], [], [])])
  }
}
