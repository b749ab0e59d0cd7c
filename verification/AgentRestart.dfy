/**
 Restarts, and the one way a record can be lost. After a crash between any two
 durable effects the restarted tailer reads whatever was not settled; and a
 flush drops exactly the records taken in while a batch file was waiting.
 */
module AgentRestart {
  import Names
  import Stacks
  import opened Tailing
  import opened Schema
  import opened Eviction
  import opened BatchStores
  import opened Processing
  import opened Agents
  import opened AgentSafety
  import opened AgentRuns
  import opened AgentBooks

  // ---------------------------------------------------------------- crash recovery

  lemma ReadOneElsewhere(r: Reading, q: string, o: Observation, p: string)
    requires p != q
    ensures Get(ReadOne(r, q, o).tailer.readOffsets, p) == Get(r.tailer.readOffsets, p)
  {
    hide Stop, Lines;
  }

  lemma ReadOneHere(r: Reading, p: string, o: Observation)
    requires o.Opened? && o.seekOk && Get(r.tailer.readOffsets, p) <= o.size && Get(r.tailer.readOffsets, p) <= |o.data|
    ensures Get(ReadOne(r, p, o).tailer.readOffsets, p) == Stop(o.data, Get(r.tailer.readOffsets, p))
  {
    hide Stop, Lines;
  }

  lemma {:induction false} ReadElsewhere(r: Reading, files: seq<string>, obs: string -> Observation, p: string)
    requires p !in files
    ensures Get(ReadAll(r, files, obs).tailer.readOffsets, p) == Get(r.tailer.readOffsets, p)
    decreases |files|
  {
    hide ReadOne;
    if files != [] {
      assert files[0] in files && forall x | x in files[1..] :: x in files;
      ReadOneElsewhere(r, files[0], obs(files[0]), p);
      ReadElsewhere(ReadOne(r, files[0], obs(files[0])), files[1..], obs, p);
    }
  }

  /** A poll reads every complete line that the file delivers. */
  lemma {:induction false} ReadReaches(r: Reading, files: seq<string>, obs: string -> Observation, p: string)
    requires Distinct(files) && p in files && obs(p).Opened? && obs(p).seekOk
    requires Get(r.tailer.readOffsets, p) <= obs(p).size && Get(r.tailer.readOffsets, p) <= |obs(p).data|
    ensures Get(ReadAll(r, files, obs).tailer.readOffsets, p) == Stop(obs(p).data, Get(r.tailer.readOffsets, p))
    decreases |files|
  {
    hide ReadOne, Stop;
    var q, rest := files[0], files[1..];
    assert Distinct(rest) && q !in rest && (p != q ==> p in rest) by { HeadApart(files); }
    if q == p {
      ReadOneHere(r, p, obs(p));
      ReadElsewhere(ReadOne(r, q, obs(q)), rest, obs, p);
    } else {
      ReadOneElsewhere(r, q, obs(q), p);
      ReadReaches(ReadOne(r, q, obs(q)), rest, obs, p);
    }
  }

  lemma HeadApart(files: seq<string>)
    requires files != [] && Distinct(files)
    ensures Distinct(files[1..]) && files[0] !in files[1..]
    ensures forall p | p in files && p != files[0] :: p in files[1..]
  {
    assert files == [files[0]] + files[1..];
  }

  lemma {:induction false} InForPath(lines: seq<FileLine>, p: string, l: FileLine)
    requires l in ForPath(lines, p)
    ensures l in lines && l.path == p
  {
    if lines[0].path != p || l != lines[0] { InForPath(lines[1..], p, l); }
  }

  /** No complete line ends behind the last one. */
  lemma StopBehind(data: string, a: nat, e: nat)
    requires a <= |data| && 0 < e <= |data| && data[e - 1] == '\n'
    ensures e <= Stop(data, a)
  {
    var b := Stop(data, a);
    forall i | b <= i < |data| ensures data[i] != '\n' { assert data[b..][i - b] == data[i]; }
  }

  /** What a tailer restarted on a line boundary reads from file `p`: every line behind its start
      offset, whatever the other files do. */
  lemma RestartReads(files: seq<string>, offsets: Offsets, obs: string -> Observation, p: string, w: string, e: int)
    returns (l: FileLine)
    requires var t := TailerState(offsets, offsets); Aligned(t, p, w) && Appending(t, p, w, obs(p))
    requires Distinct(files) && p in files
    requires obs(p).Opened? && obs(p).seekOk && Get(offsets, p) < e <= |obs(p).data| && LineBreak(w, e)
    ensures l in ReadNew(TailerState(offsets, offsets), files, obs).lines && l.path == p && l.endOffset == e
  {
    var r0 := Reading(TailerState(offsets, offsets), [], [], false);
    ReadPathAppending(r0, files, obs, p, w);
    ReadReaches(r0, files, obs, p);
    StopBehind(obs(p).data, Get(offsets, p), e);
    hide Stop, ReadAll, Between, Boundary, LineBreak;
    assert [] + Between(p, w, Get(offsets, p), Stop(obs(p).data, Get(offsets, p)))
        == Between(p, w, Get(offsets, p), Stop(obs(p).data, Get(offsets, p)));
    l := LineIn(p, w, Get(offsets, p), Stop(obs(p).data, Get(offsets, p)), e);
    InForPath(ReadAll(r0, files, obs).lines, p, l);
  }

  lemma LineIn(p: string, w: string, a: nat, b: nat, e: int) returns (l: FileLine)
    requires a < e <= b <= |w| && LineBreak(w, e)
    ensures l in Between(p, w, a, b) && l.endOffset == e
  {
    LinesComplete(p, w[..b], a, e);
    l :| l in Lines(p, w[..b], a) && l.endOffset == e;
  }

  /** Crash recovery is at-least-once: wherever a run is cut between two durable effects, the
      restart begins on a line boundary of every file, and every complete line that a file then
      delivers was settled before the crash or is read by the restarted tailer. */
  lemma RestartCovers(env: Env, W: World, evs: seq<Event>, at: nat, stuck: set<string>, nanos: nat,
                      obs: string -> Observation, p: string, e: int)
    requires ValidEnv(env) && AppendOnlyRun(env, FRESH, W, evs) && at < |Run(env, FRESH, evs).trail|
    requires p in env.files && LineBreak(W(p), e)
    requires var st := Run(env, FRESH, evs);
             var s := Boot(st, st.trail[at], stuck, nanos);
             && AppendOnly(s, W, env.files, obs)
             && obs(p).Opened? && obs(p).seekOk && e <= |obs(p).data|
    ensures var st := Run(env, FRESH, evs);
            var d := st.trail[at];
            var s := Boot(st, d, stuck, nanos);
            && Boundary(W(p), Get(s.tailer.readOffsets, p))
            && Placed(d.log, d.fates, d.disk.published, d.dropped, d.crashed, d.unsaved)
            && (Settled(d.log, d.fates, SETTLED, p, e)
                || exists l :: l in ReadNew(s.tailer, env.files, obs).lines && l.path == p && l.endOffset == e)
  {
    RunSound(env, W, evs);
    var st := Run(env, FRESH, evs);
    SoundTrail(st, W);
    var d := st.trail[at];
    RunBooks(env, evs);
    BooksTrail(st);
    hide Run, AppendOnlyRun, Sound, Settled, Books, Placed, RecoverClaims;
    assert CoveredTo(d.log, d.fates, SETTLED, W(p), p, Get(d.offsets, p));
    assert Get(d.offsets, p) <= |W(p)| && Boundary(W(p), Get(d.offsets, p));
    if e > Get(d.offsets, p) {
      var l := RestartReads(env.files, d.offsets, obs, p, W(p), e);
    }
  }

  // ---------------------------------------------------------------- the late record

  /** A flush drops exactly the records that are in no batch file when a file is already
      waiting and its commit goes through; otherwise it drops nothing. */
  lemma FlushDrops(env: Env, st: AgentState)
    requires Batched(st)
    ensures var s := FlushBatch(env, st).st;
            var goesThrough := CommitAllowed(st.tailer, st.batchOffsets) && env.saveOk(st.saves);
            && s.dropped == st.dropped + (if st.pendingBatch != "" && goesThrough then Unsaved(st) else [])
            && (s.dropped != st.dropped <==> st.pendingBatch != "" && Unsaved(st) != [] && goesThrough)
  {
    hide CommitAllowed, Candidate, Publish, Names.NewBatchName;
    assert st.batch == [] ==> Unsaved(st) == [];
    assert st.dropped + [] == st.dropped;
    if st.batch != [] && st.pendingBatch == "" {
      var st1 := WritePending(env, st).0;
      assert env.write(st.writes).WriteDone? ==> Unsaved(st1) == [];
    }
    assert Unsaved(st) != [] ==> |st.dropped + Unsaved(st)| > |st.dropped|;
  }

  /** Records that come in while a batch file is waiting are in no batch: as soon as a flush gets
      its commit through, all of them are dropped, however many there are and whether or not they
      fill a batch, nothing more is written, and the committed offset reaches the last line. */
  lemma LateRecordsAreLost(env: Env, st: AgentState, line: FileLine, now: int)
    requires Batched(st) && st.pendingBatch != "" && Taken(env, st, line, now).Keep?
    requires CommitAllowed(st.tailer, st.batchOffsets[line.path := line.endOffset]) && env.saveOk(st.saves)
    ensures var s := FlushBatch(env, Record(env, st, line, now)).st;
            && s.dropped == st.dropped + (Unsaved(st) + [Taken(env, st, line, now).record])
            && s.disk == st.disk && s.stacks == st.stacks && s.batch == [] && s.batchOffsets == map[]
            && s.saves == st.saves + 1
            && s.tailer == st.tailer.(offsets := Candidate(st.tailer, st.batchOffsets[line.path := line.endOffset]))
            && Get(s.tailer.offsets, line.path) >= line.endOffset
    ensures |st.batch| + 1 >= env.batchSize ==> ProcessLine(env, st, line, now) == FlushBatch(env, Record(env, st, line, now))
  {
    hide Decide, CommitAllowed, Candidate;
    RecordIs(env, st, line, now);
    var s1 := Record(env, st, line, now);
    hide Record, Taken;
    assert Unsaved(s1) == Unsaved(st) + [Taken(env, st, line, now).record];
    hide Unsaved;
    assert s1.batch != st.batch && |s1.batch| == |st.batch| + 1;
    assert FlushBatch(env, s1) == CommitBatch(env, s1);
    assert line.path in s1.batchOffsets;
    CommitIs(env, s1);
    CommitReaches(s1.tailer, s1.batchOffsets, line.path);
  }

  lemma CommitReaches(t: TailerState, safe: map<string, int>, p: string)
    requires CommitAllowed(t, safe) && p in safe
    ensures Get(Candidate(t, safe), p) >= safe[p]
  {
  }

  // ---------------------------------------------------------------- a run that loses a record

  const CONTENT := "a\nb\nc\n"
  const LINES := [FileLine("f", "a", 2), FileLine("f", "b", 4), FileLine("f", "c", 6)]

  function Whole(path: string): Observation {
    Opened(6, true, CONTENT, true)
  }

  lemma ContentLines()
    ensures Lines("f", CONTENT, 0) == LINES && Stop(CONTENT, 0) == 6
  {
    assert LineEnd(CONTENT, 0) == 2 && LineEnd(CONTENT, 2) == 4 && LineEnd(CONTENT, 4) == 6 && LineEnd(CONTENT, 6) == 0;
    assert CONTENT[0..2] == "a\n" && CONTENT[2..4] == "b\n" && CONTENT[4..6] == "c\n";
    assert LineText("a\n") == "a" && LineText("b\n") == "b" && LineText("c\n") == "c";
    assert Lines("f", CONTENT, 6) == [];
    assert Lines("f", CONTENT, 4) == [LINES[2]];
    assert Lines("f", CONTENT, 2) == [LINES[1], LINES[2]];
  }

  lemma NoContinuations()
    ensures forall l | l in LINES :: !Stacks.IsContinuation(l.text)
  {
  }

  /** The first record's batch file is written, but saving its offset fails. */
  lemma WrittenNotCommitted(env: Env, st: AgentState, line: FileLine, now: int)
    requires env.batchSize == 1 && st.batch == [] && Batched(st) && st.batchOffsets == map[]
    requires line.path in st.tailer.readOffsets && 0 <= line.endOffset <= st.tailer.readOffsets[line.path]
    requires Taken(env, st, line, now).Keep? && env.write(st.writes).WriteDone? && !env.saveOk(st.saves)
    ensures var s := ProcessLine(env, st, line, now).st;
            && s.batch == [Taken(env, st, line, now).record] && s.written == 1 && s.pendingBatch != ""
            && s.batchOffsets == map[line.path := line.endOffset] && s.saves == st.saves + 1
            && s.tailer == st.tailer && s.stacks == st.stacks && s.dropped == st.dropped
            && Records(s.disk.published) == Records(st.disk.published) + s.batch
  {
    hide Decide, Candidate, Publish, Names.NewBatchName, Records;
    RecordIs(env, st, line, now);
    var s1 := Record(env, st, line, now);
    hide Record, Taken;
    assert s1.batch == [Taken(env, st, line, now).record];
    PublishRecords(s1.disk, env.maxBytes, s1.batch, env.write(s1.writes));
    WriteIs(env, s1);
    BatchStores.NewNameEnds(env.write(s1.writes));
    var s2 := WritePending(env, s1).0;
    hide WritePending;
    assert ProcessLine(env, st, line, now) == FlushBatch(env, s1) == CommitBatch(env, s2);
    assert line.path in s2.batchOffsets;
    CommitIs(env, s2);
  }

  /** A record that is written and committed at once. */
  lemma WrittenAndCommitted(env: Env, st: AgentState, line: FileLine, now: int)
    requires env.batchSize == 1 && st.batch == [] && Batched(st)
    requires CommitAllowed(st.tailer, st.batchOffsets[line.path := line.endOffset])
    requires Taken(env, st, line, now).Keep? && env.write(st.writes).WriteDone? && env.saveOk(st.saves)
    ensures var s := ProcessLine(env, st, line, now).st;
            && ProcessLine(env, st, line, now).ok
            && s.batch == [] && s.batchOffsets == map[] && s.pendingBatch == "" && s.written == 0 && s.released == st.released
            && s.stacks == st.stacks && s.tailer.readOffsets == st.tailer.readOffsets
            && s.tailer.offsets == Candidate(st.tailer, st.batchOffsets[line.path := line.endOffset])
            && s.writes == st.writes + 1 && s.saves == st.saves + 1
            && (exists x: Entry :: x.line == line && x.from == Done(st, line.path) && s.log == st.log + [x])
            && s.commits == st.commits + [OffsetsCommit(st.tailer.readOffsets, st.batchOffsets[line.path := line.endOffset])]
            && s.trail != [] && s.trail[|s.trail| - 1].offsets == s.tailer.offsets && s.trail[|s.trail| - 1].log == s.log
            && s.trail[|s.trail| - 1].commits == s.commits
  {
    hide Decide, Candidate, CommitAllowed, Publish, Names.NewBatchName, Done;
    RecordIs(env, st, line, now);
    var s1 := Record(env, st, line, now);
    hide Record, Taken;
    assert s1.batch != st.batch && |s1.batch| == 1;
    BatchStores.NewNameEnds(env.write(s1.writes));
    var s2 := WritePending(env, s1).0;
    assert s2.tailer == s1.tailer && s2.batchOffsets == s1.batchOffsets && s2.pendingBatch != "" && s2.writes == s1.writes + 1;
    assert s2.log == s1.log && s2.stacks == s1.stacks && s2.saves == s1.saves && s2.released == s1.released
        && WritePending(env, s1).1;
    hide WritePending;
    assert ProcessLine(env, st, line, now) == FlushBatch(env, s1) == CommitBatch(env, s2);
    assert line.path in s2.batchOffsets;
    CommitIs(env, s2);
    assert s1.log[|st.log|].line == line;
  }

  lemma HeldBack(env: Env, g: Progress, line: FileLine, now: int)
    requires !Stacks.IsContinuation(line.text)
    ensures line.path !in g.st.stacks.pending ==> AddLine(env, g, line, now) == g.(st := Holding(g.st, line, now))
    ensures line.path in g.st.stacks.pending ==>
              AddLine(env, g, line, now) == Process(env, g.(st := Holding(g.st, line, now)), g.st.stacks.pending[line.path], now)
  {
    hide Process;
    if line.path in g.st.stacks.pending {
      var g1, x := g.(st := Holding(g.st, line, now)), g.st.stacks.pending[line.path];
      assert [x][1..] == [] && ProcessAll(env, g1, [x], now) == ProcessAll(env, Process(env, g1, x, now), [], now);
    }
  }

  function Holding(st: AgentState, line: FileLine, now: int): AgentState {
    st.(stacks := Stacks.StackState(st.stacks.pending[line.path := line], st.stacks.updatedAt[line.path := now]))
  }

  function AfterRead(): Progress {
    Progress(FRESH.(tailer := TailerState(map[], map["f" := 6])), [], false)
  }

  lemma ReadWhole()
    ensures ReadNew(FRESH.tailer, ["f"], Whole) == Reading(AfterRead().st.tailer, LINES, [], false)
  {
    ContentLines();
    hide Lines, Stop;
    var r0 := Reading(FRESH.tailer, [], [], false);
    var r1 := ReadOne(r0, "f", Whole("f"));
    assert [] + LINES == LINES && Whole("f") == Opened(6, true, CONTENT, true);
    assert r1 == Reading(AfterRead().st.tailer, LINES, [], false);
    assert ["f"][0] == "f" && ["f"][1..] == [];
    assert ReadAll(r0, ["f"], Whole) == ReadAll(r1, [], Whole) == r1;
  }

  lemma FeedThree(env: Env, g: Progress, a: FileLine, b: FileLine, c: FileLine, now: int)
    ensures FeedLines(env, g, [a, b, c], now) == AddLine(env, AddLine(env, AddLine(env, g, a, now), b, now), c, now)
  {
    hide AddLine;
    assert [a, b, c][1..] == [b, c] && [b, c][1..] == [c] && [c][1..] == [];
    var g1, g2 := AddLine(env, g, a, now), AddLine(env, AddLine(env, g, a, now), b, now);
    assert FeedLines(env, g2, [c], now) == FeedLines(env, AddLine(env, g2, c, now), [], now);
    assert FeedLines(env, g1, [b, c], now) == FeedLines(env, g2, [c], now);
  }

  /** The first two lines: the first is processed, written, and its commit fails. */
  lemma AfterTwo(env: Env, now: int) returns (st: AgentState)
    requires env.batchSize == 1 && env.write(0).WriteDone? && !env.saveOk(0)
    requires forall line, t, k :: Decide(env.settings, line, t, k).0.Keep?
    ensures st == AddLine(env, AddLine(env, AfterRead(), LINES[0], now), LINES[1], now).st
    ensures st.stacks == Stacks.StackState(map["f" := LINES[1]], map["f" := now])
    ensures |st.batch| == 1 && st.written == 1 && st.pendingBatch != "" && st.batchOffsets == map["f" := 2]
    ensures st.saves == 1 && st.tailer == AfterRead().st.tailer && st.dropped == [] && |Records(st.disk.published)| == 1
  {
    hide Decide, ProcessLine, AddLine, Records;
    NoContinuations();
    var g0 := AfterRead();
    assert LINES[0] in LINES && LINES[1] in LINES;
    HeldBack(env, g0, LINES[0], now);
    var g1 := g0.(st := Holding(g0.st, LINES[0], now));
    HeldBack(env, g1, LINES[1], now);
    var st1 := Holding(g1.st, LINES[1], now);
    assert st1.stacks == Stacks.StackState(map["f" := LINES[1]], map["f" := now]);
    assert Unsaved(st1) == [];
    assert Records(st1.disk.published) == [] by { NoRecords(); }
    WrittenNotCommitted(env, st1, LINES[0], now);
    st := ProcessLine(env, st1, LINES[0], now).st;
  }

  lemma NoRecords()
    ensures Records([]) == []
  {
  }

  /** All three lines: the second record arrives while the first batch file is waiting. */
  lemma AfterThree(env: Env, now: int) returns (st: AgentState)
    requires env.batchSize == 1 && env.write(0).WriteDone? && !env.saveOk(0) && env.saveOk(1)
    requires forall line, t, k :: Decide(env.settings, line, t, k).0.Keep?
    ensures st == FeedLines(env, AfterRead(), LINES, now).st
    ensures st.stacks == Stacks.StackState(map["f" := LINES[2]], map["f" := now])
    ensures st.batch == [] && st.batchOffsets == map[]
    ensures Get(st.tailer.offsets, "f") == 4 && |st.dropped| == 1 && |Records(st.disk.published)| == 1
  {
    hide Decide, ProcessLine, AddLine, Records, AfterRead, FeedLines;
    NoContinuations();
    assert LINES[2] in LINES;
    FeedThree(env, AfterRead(), LINES[0], LINES[1], LINES[2], now);
    var g2 := AddLine(env, AddLine(env, AfterRead(), LINES[0], now), LINES[1], now);
    var st2 := AfterTwo(env, now);
    HeldBack(env, g2, LINES[2], now);
    var st3 := Holding(st2, LINES[2], now);
    ReadTailer();
    SecondCommit(env, st3, now);
    st := ProcessLine(env, st3, LINES[1], now).st;
  }

  /** The second record is taken in while the first batch file waits, and its offset is committed. */
  lemma SecondCommit(env: Env, st: AgentState, now: int)
    requires env.batchSize == 1 && env.saveOk(1) && Taken(env, st, LINES[1], now).Keep?
    requires |st.batch| == 1 && st.written == 1 && st.pendingBatch != "" && st.batchOffsets == map["f" := 2]
    requires st.saves == 1 && st.tailer == TailerState(map[], map["f" := 6]) && st.dropped == []
    ensures var s := ProcessLine(env, st, LINES[1], now).st;
            && s.stacks == st.stacks && s.disk == st.disk && s.batch == [] && s.batchOffsets == map[]
            && Get(s.tailer.offsets, "f") == 4 && |s.dropped| == 1
  {
    hide Taken, ProcessLine, Record, FlushBatch, Candidate;
    assert Unsaved(st) == [];
    LateRecordsAreLost(env, st, LINES[1], now);
    var s := FlushBatch(env, Record(env, st, LINES[1], now)).st;
    assert |Unsaved(st) + [Taken(env, st, LINES[1], now).record]| == 1;
    CommitMeaning(st.tailer, st.batchOffsets["f" := 4], "f");
  }

  lemma ReadTailer()
    ensures AfterRead().st.tailer == TailerState(map[], map["f" := 6])
  {
  }

  /** The hypothesis of `SavesLoseNothing` is needed: with one save of the offsets failing, one
      poll of a file of three lines commits the offset of a record that is in no batch. */
  lemma OneFailedSaveLosesARecord(env: Env, now: int)
    requires env.files == ["f"] && env.batchSize == 1
    requires forall line, t, k :: Decide(env.settings, line, t, k).0.Keep?
    requires env.write(0).WriteDone? && !env.saveOk(0) && env.saveOk(1)
    ensures var st := Run(env, FRESH, [Polled(now, Whole)]);
            Get(st.tailer.offsets, "f") == 4 && |Records(st.disk.published)| == 1 && |st.dropped| == 1
  {
    hide Decide, AddLine, Records, FeedLines, ReadNew;
    ReadWhole();
    assert [Polled(now, Whole)][..0] == [];
    var st := AfterThree(env, now);
    var g := FeedLines(env, AfterRead(), LINES, now);
    assert Resets(env, AfterRead(), [], now) == AfterRead();
    assert ["f"][1..] == [];
    assert IdleOne(env, g, "f", now) == g;
    assert Idles(env, g, ["f"], now) == Idles(env, IdleOne(env, g, "f", now), [], now) == g;
    assert Poll(env, FRESH, Whole, now).st == st;
  }
}
