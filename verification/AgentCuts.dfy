/**
 What is lost of a file that was cut. From the poll that starts a file over, and
 as long as the file then only grows, whatever the other files do: the new lines
 up to the last safe offset committed are settled, and a restart begins there,
 unless every commit left the old committed offset alone and it lies above. That
 is the only way in which a line behind a committed offset can be lost.
 */
module AgentCuts {
  import Names
  import opened Tailing
  import Stacks
  import Eviction
  import opened BatchStores
  import opened Processing
  import opened Agents
  import opened AgentSafety
  import opened AgentSteps
  import opened AgentRuns
  import opened AgentBooks
  import opened AgentRestart
  import AgentShrinks

  /** A file that is started over: its new content, and the commits carried out and the number of
      entries processed before. */
  datatype Origin = Origin(path: string, content: string, commits: seq<OffsetsCommit>, entries: nat)

  /** The committed offset of the file when it is started over. */
  function OldOffset(o: Origin): nat {
    Get(SaveAll(map[], o.commits), o.path)
  }

  function CommitsSince(o: Origin, commits: seq<OffsetsCommit>): seq<OffsetsCommit>
    requires o.commits <= commits
  {
    commits[|o.commits|..]
  }

  /** Every new line up to the last safe offset committed is held by an entry since then that was
      filtered, or whose record is published or dropped; and these entries are made of the new lines. */
  ghost predicate SettledSince(o: Origin, commits: seq<OffsetsCommit>, log: seq<Entry>, fates: seq<Fate>) {
    && o.commits <= commits && o.entries <= |log| == |fates|
    && SafeRises(CommitsSince(o, commits), o.path)
    && var k := SafeUpTo(CommitsSince(o, commits), o.path);
    && k <= |o.content| && Boundary(o.content, k)
    && CoveredTo(log[o.entries..], fates[o.entries..], SETTLED, o.content, o.path, k)
    && NewEntries(o, log)
  }

  predicate NewEntries(o: Origin, log: seq<Entry>) {
    forall i | o.entries <= i < |log| && log[i].line.path == o.path && log[i].line.endOffset > 0 ::
      EntryText(o.content, log[i].from, log[i].line)
  }

  /** The durable moment lies behind the origin. */
  predicate IsSince(o: Origin, d: Durable) {
    o.commits <= d.commits && o.entries <= |d.log|
  }

  ghost predicate TrailSince(o: Origin, trail: seq<Durable>) {
    forall d | d in trail && IsSince(o, d) :: SettledSince(o, d.commits, d.log, d.fates)
  }

  /** What has been processed of the file stands at or above the last safe offset committed, and
      there where no safe offset waits; and all of it is held by entries. */
  ghost predicate Ledgered(o: Origin, st: AgentState) {
    && SettledSince(o, st.commits, st.log, st.fates) && TrailSince(o, st.trail)
    && var k := SafeUpTo(CommitsSince(o, st.commits), o.path);
    && k <= Done(st, o.path) && (o.path !in st.batchOffsets ==> Done(st, o.path) == k)
    && CoveredTo(st.log[o.entries..], st.fates[o.entries..], PROCESSED, o.content, o.path, Done(st, o.path))
  }

  /** Every held-back entry is of its own file. */
  predicate HeldOwn(s: Stacks.StackState) {
    forall q | q in s.pending :: s.pending[q].path == q
  }

  ghost predicate Regrown(o: Origin, st: AgentState, rest: seq<FileLine>) {
    && Ledgered(o, st) && HeldOwn(st.stacks)
    && At(st, o.content, o.path, Done(st, o.path), rest)
  }

  // ---------------------------------------------------------------- durable effects

  lemma MarkSince(o: Origin, st: AgentState)
    requires Ledgered(o, st)
    ensures Ledgered(o, Mark(st))
  {
    hide SettledSince, CoveredTo, SafeUpTo;
    var s := Mark(st);
    forall d | d in s.trail && IsSince(o, d) ensures SettledSince(o, d.commits, d.log, d.fates) {
      if d !in st.trail { assert d == Snapshot(st); }
    }
    assert SettledSince(o, s.commits, s.log, s.fates);
  }

  /** The records in memory go elsewhere. */
  lemma CoverageMoves(o: Origin, log: seq<Entry>, fates: seq<Fate>, to: Fate, places: set<Fate>, places2: set<Fate>, n: int)
    requires o.entries <= |log| == |fates| && CoveredTo(log[o.entries..], fates[o.entries..], places, o.content, o.path, n)
    requires places2 == places || (places == PROCESSED && to in places2 && places2 == SETTLED)
    requires to in places2 || InMemory !in places
    ensures CoveredTo(log[o.entries..], Moved(fates, to)[o.entries..], places2, o.content, o.path, n)
  {
    hide CoveredTo;
    var m := o.entries;
    assert Remain(log[m..], fates[m..], places, log[m..], Moved(fates, to)[m..], places2);
    CoveredMore(log[m..], fates[m..], places, log[m..], Moved(fates, to)[m..], places2, o.content, o.path, n);
  }

  /** One more commit carried out: it says that everything processed is settled. */
  lemma CommitsSnoc(o: Origin, st: AgentState)
    requires Ledgered(o, st) && CommitAllowed(st.tailer, st.batchOffsets)
    ensures var commits := st.commits + [OffsetsCommit(st.tailer.readOffsets, st.batchOffsets)];
            && o.commits <= commits
            && SafeRises(CommitsSince(o, commits), o.path)
            && SafeUpTo(CommitsSince(o, commits), o.path) == Done(st, o.path)
  {
    hide CoveredTo, NewEntries, TrailSince;
    var save := OffsetsCommit(st.tailer.readOffsets, st.batchOffsets);
    var since := CommitsSince(o, st.commits);
    assert CommitsSince(o, st.commits + [save]) == since + [save];
    assert Allowed(save);
    SafeSnoc(since, save, o.path);
    hide SafeRises;
  }

  lemma SavedSince(o: Origin, st: AgentState)
    requires Ledgered(o, st) && CommitAllowed(st.tailer, st.batchOffsets)
    requires Done(st, o.path) <= |o.content| && Boundary(o.content, Done(st, o.path))
    ensures Ledgered(o, AgentSafety.Saved(st))
  {
    CommitsSnoc(o, st);
    DoneSaved(st, o.path);
    CoverageMoves(o, st.log, st.fates, Dropped, PROCESSED, SETTLED, Done(st, o.path));
    CoverageMoves(o, st.log, st.fates, Dropped, PROCESSED, PROCESSED, Done(st, o.path));
    hide CoveredTo, NewEntries, TrailSince, SafeRises, SafeUpTo, Done, Candidate, CommitAllowed;
  }

  lemma SameAt(a: AgentState, b: AgentState, w: string, p: string, m: int, rest: seq<FileLine>)
    requires At(a, w, p, m, rest) && b.stacks == a.stacks && b.tailer.readOffsets == a.tailer.readOffsets
    requires p in b.batchOffsets ==> p in a.batchOffsets
    ensures At(b, w, p, m, rest)
  {
  }

  lemma CommitRegrown(env: Env, o: Origin, st: AgentState, rest: seq<FileLine>)
    requires Regrown(o, st, rest)
    ensures Regrown(o, Commit(env, st).0, rest)
  {
    var s := Commit(env, st).0;
    if CommitAllowed(st.tailer, st.batchOffsets) && st.batchOffsets != map[] && env.saveOk(st.saves) {
      SavedSince(o, st);
      MarkSince(o, AgentSafety.Saved(st));
      CommitIs(env, st);
      DoneSaved(st, o.path);
      SameAt(st, s, o.content, o.path, Done(st, o.path), rest);
      hide Ledgered, At, Done, CommitAllowed, AgentSafety.Saved;
      assert Done(s, o.path) == Done(AgentSafety.Saved(st), o.path) by { DoneMark(AgentSafety.Saved(st), o.path); }
    } else {
      hide CommitAllowed, SettledSince, CoveredTo, TrailSince, SafeUpTo;
      SameAt(st, s, o.content, o.path, Done(st, o.path), rest);
      hide At;
    }
  }

  lemma DoneMark(st: AgentState, p: string)
    ensures Done(Mark(st), p) == Done(st, p)
  {
  }

  lemma WriteRegrown(env: Env, o: Origin, st: AgentState, rest: seq<FileLine>)
    requires Regrown(o, st, rest)
    ensures Regrown(o, WritePending(env, st).0, rest)
  {
    var s := Published(env, st);
    WriteIs(env, st);
    CoverageMoves(o, st.log, st.fates, InQueue, SETTLED, SETTLED, SafeUpTo(CommitsSince(o, st.commits), o.path));
    CoverageMoves(o, st.log, st.fates, InQueue, PROCESSED, PROCESSED, Done(st, o.path));
    assert Ledgered(o, s) && Done(s, o.path) == Done(st, o.path) by {
      hide CoveredTo, NewEntries, TrailSince, SafeRises, SafeUpTo, Publish, Names.NewBatchName;
    }
    MarkSince(o, s);
    SameAt(st, s, o.content, o.path, Done(st, o.path), rest);
    SameAt(s, Mark(s), o.content, o.path, Done(st, o.path), rest);
    DoneMark(s, o.path);
    hide Ledgered, At, Done, Published;
  }

  lemma ClearRegrown(o: Origin, st: AgentState, rest: seq<FileLine>)
    requires Regrown(o, st, rest)
    ensures Regrown(o, st.(batch := [], pendingBatch := "", written := 0), rest)
  {
    hide SettledSince, CoveredTo, TrailSince, SafeUpTo;
    SameAt(st, st.(batch := [], pendingBatch := "", written := 0), o.content, o.path, Done(st, o.path), rest);
    hide At;
  }

  lemma FlushRegrown(env: Env, o: Origin, st: AgentState, rest: seq<FileLine>)
    requires Regrown(o, st, rest)
    ensures Regrown(o, FlushBatch(env, st).st, rest)
  {
    hide Regrown, Commit, WritePending;
    CommitRegrown(env, o, st, rest);
    WriteRegrown(env, o, st, rest);
    var st1 := if st.pendingBatch == "" then WritePending(env, st).0 else st;
    CommitRegrown(env, o, st1, rest);
    ClearRegrown(o, Commit(env, st1).0, rest);
  }

  // ---------------------------------------------------------------- processing one entry

  lemma TailSnoc<T>(s: seq<T>, x: T, n: nat)
    requires n <= |s|
    ensures (s + [x])[n..] == s[n..] + [x]
  {
  }

  lemma EntriesSnoc(o: Origin, log: seq<Entry>, x: Entry)
    requires NewEntries(o, log)
    requires x.line.path == o.path && x.line.endOffset > 0 ==> EntryText(o.content, x.from, x.line)
    ensures NewEntries(o, log + [x])
  {
    hide EntryText;
  }

  /** One more entry, of whatever file; an entry of the file itself begins where the last one
      ended, or is the old one thrown back to 0. */
  lemma SettledTakes(o: Origin, st: AgentState, x: Entry, f: Fate, m: int)
    requires Ledgered(o, st) && f in PROCESSED
    requires x.line.path == o.path && x.line.endOffset > 0 ==> EntryText(o.content, x.from, x.line)
    requires m == Done(st, o.path) || (x.line.path == o.path && x.from == Done(st, o.path) && x.line.endOffset == m)
    ensures SettledSince(o, st.commits, st.log + [x], st.fates + [f])
    ensures CoveredTo((st.log + [x])[o.entries..], (st.fates + [f])[o.entries..], PROCESSED, o.content, o.path, m)
  {
    EntriesSnoc(o, st.log, x);
    TailSnoc(st.log, x, o.entries);
    TailSnoc(st.fates, f, o.entries);
    var log, fates, w, p := st.log[o.entries..], st.fates[o.entries..], o.content, o.path;
    CoveredStep(log, fates, PROCESSED, x, f, w, p, Done(st, p), m);
    CoveredMore(log, fates, SETTLED, log + [x], fates + [f], SETTLED, w, p, SafeUpTo(CommitsSince(o, st.commits), p));
    hide CoveredTo, NewEntries, TrailSince, SafeRises, SafeUpTo, EntryText;
  }

  /** The entry in flight belongs to another file, or stands directly behind what has been
      processed of the file, or is its old one thrown back to 0. */
  ghost predicate Ready(o: Origin, st: AgentState, line: FileLine, rest: seq<FileLine>) {
    && Ledgered(o, st) && HeldOwn(st.stacks)
    && At(st, o.content, o.path, if line.path == o.path then line.endOffset else Done(st, o.path), rest)
    && (line.path == o.path ==>
          || (line.endOffset == 0 == Done(st, o.path) && o.path in st.tailer.readOffsets)
          || EntryText(o.content, Done(st, o.path), line))
  }

  lemma RecordRegrown(env: Env, o: Origin, st: AgentState, line: FileLine, rest: seq<FileLine>, now: int)
    requires Ready(o, st, line, rest)
    ensures Regrown(o, Record(env, st, line, now), rest)
  {
    var s := Record(env, st, line, now);
    var d := Decide(env.settings, line, now, st.drawn).0;
    RecordFrame(env, st, line, now);
    ReadyEnd(o, st, line, rest);
    RecordAt(st, s, o.content, o.path, line.path, line.endOffset, rest);
    SettledTakes(o, st, Entry(Done(st, line.path), line, now, st.drawn, d), if d.Keep? then InMemory else NoRecord, Done(s, o.path));
    hide SettledSince, CoveredTo, TrailSince, SafeUpTo, At, EntryText, Record, Decide;
  }

  lemma ReadyEnd(o: Origin, st: AgentState, line: FileLine, rest: seq<FileLine>)
    requires Ready(o, st, line, rest)
    ensures line.path == o.path ==> line.endOffset >= Done(st, o.path) && (line.endOffset > 0 || o.path in st.tailer.readOffsets)
    ensures line.path == o.path && line.endOffset > 0 ==> EntryText(o.content, Done(st, o.path), line)
  {
    hide Ledgered, At;
  }

  lemma ProcessRegrown(env: Env, o: Origin, g: Progress, line: FileLine, rest: seq<FileLine>, now: int)
    requires Ready(o, g.st, line, rest)
    ensures Regrown(o, Process(env, g, line, now).st, rest)
  {
    hide Ready, Regrown, Record, FlushBatch;
    RecordRegrown(env, o, g.st, line, rest, now);
    FlushRegrown(env, o, Record(env, g.st, line, now), rest);
  }

  // ---------------------------------------------------------------- a poll in which the file grows

  lemma StacksLedgered(o: Origin, st: AgentState, stacks: Stacks.StackState, released: seq<FileLine>)
    requires Ledgered(o, st)
    ensures Ledgered(o, st.(stacks := stacks, released := released)) && Ledgered(o, st.(stacks := stacks))
  {
    hide SettledSince, CoveredTo, TrailSince, SafeUpTo;
  }

  lemma AddOwn(s: Stacks.StackState, line: FileLine, now: int)
    requires HeldOwn(s)
    ensures HeldOwn(Stacks.Add(s, line, now).0) && |Stacks.Add(s, line, now).1| <= 1
    ensures forall x | x in Stacks.Add(s, line, now).1 :: x.path == line.path
  {
    hide Stacks.IsContinuation;
  }

  /** Another file's entries do not matter to where this file stands. */
  lemma OpenAt(st: AgentState, stacks: Stacks.StackState, w: string, p: string, m: int, rest: seq<FileLine>)
    requires At(st, w, p, m, rest) && Stacks.Open(stacks, p) == Stacks.Open(st.stacks, p)
    ensures At(st.(stacks := stacks), w, p, m, rest)
  {
    hide EntryText, Between;
  }

  /** The assembler has taken one line; what it completed is yet to be processed. */
  lemma AddReady(o: Origin, st: AgentState, line: FileLine, rest: seq<FileLine>, now: int)
    requires Regrown(o, st, ForPath([line] + rest, o.path))
    ensures var (stacks, completed) := Stacks.Add(st.stacks, line, now);
            var s := st.(stacks := stacks);
            && |completed| <= 1
            && (completed == [] ==> Regrown(o, s, ForPath(rest, o.path)))
            && (completed != [] ==> Ready(o, s, completed[0], ForPath(rest, o.path)))
  {
    var (stacks, completed) := Stacks.Add(st.stacks, line, now);
    assert ([line] + rest)[1..] == rest;
    StacksLedgered(o, st, stacks, []);
    AddOwn(st.stacks, line, now);
    AddElsewhere(st.stacks, line, now);
    if line.path == o.path {
      ForPathHead(line, rest);
      OwnAt(st, o.content, Done(st, o.path), line, ForPath(rest, o.path));
      SameOpenAt(st, Stacks.Add(st.stacks, line, 0).0, stacks, o.content, o.path,
                 if completed == [] then Done(st, o.path) else completed[0].endOffset, ForPath(rest, o.path));
    } else {
      OpenAt(st, stacks, o.content, o.path, Done(st, o.path), ForPath(rest, o.path));
    }
    hide Ledgered, At, EntryText, ForPath, Stacks.Add;
  }

  lemma SameOpenAt(st: AgentState, a: Stacks.StackState, b: Stacks.StackState, w: string, p: string, m: int, rest: seq<FileLine>)
    requires At(st.(stacks := a), w, p, m, rest) && a.pending == b.pending
    ensures At(st.(stacks := b), w, p, m, rest)
  {
    hide EntryText, Between;
  }

  lemma AddRegrown(env: Env, o: Origin, g: Progress, line: FileLine, rest: seq<FileLine>, now: int)
    requires Regrown(o, g.st, ForPath([line] + rest, o.path))
    ensures Regrown(o, AddLine(env, g, line, now).st, ForPath(rest, o.path))
  {
    hide Stacks.Add, Process, Regrown, Ready, ForPath;
    AddReady(o, g.st, line, rest, now);
    var (stacks, completed) := Stacks.Add(g.st.stacks, line, now);
    var g1 := g.(st := g.st.(stacks := stacks));
    if completed != [] {
      assert completed == [completed[0]] && completed[1..] == [];
      assert ProcessAll(env, Process(env, g1, completed[0], now), completed[1..], now) == Process(env, g1, completed[0], now);
      ProcessRegrown(env, o, g1, completed[0], ForPath(rest, o.path), now);
    }
  }

  lemma {:induction false} FeedRegrown(env: Env, o: Origin, g: Progress, lines: seq<FileLine>, now: int)
    requires Regrown(o, g.st, ForPath(lines, o.path))
    ensures Regrown(o, FeedLines(env, g, lines, now).st, [])
    decreases |lines|
  {
    hide Regrown, AddLine;
    if lines == [] {
      assert ForPath(lines, o.path) == [];
    } else {
      assert [lines[0]] + lines[1..] == lines;
      AddRegrown(env, o, g, lines[0], lines[1..], now);
      FeedRegrown(env, o, AddLine(env, g, lines[0], now), lines[1..], now);
    }
  }

  /** An entry taken off the assembler is ready to be processed. */
  lemma TakenReady(o: Origin, st: AgentState, path: string, released: seq<FileLine>)
    requires Regrown(o, st, [])
    ensures var (stacks, pending) := Stacks.Flush(st.stacks, path);
            && (pending.None? ==> Regrown(o, st.(stacks := stacks), []) && Regrown(o, st.(stacks := stacks, released := released), []))
            && (pending.Some? ==> Ready(o, st.(stacks := stacks, released := released), pending.value, []))
  {
    var (stacks, pending) := Stacks.Flush(st.stacks, path);
    StacksLedgered(o, st, stacks, released);
    TakenAt(st, o.content, o.path, Done(st, o.path), path, []);
    SameAt(st.(stacks := stacks), st.(stacks := stacks, released := released), o.content, o.path,
           if pending.Some? && o.path == path then pending.value.endOffset else Done(st, o.path), []);
    assert pending.Some? ==> pending.value.path == path;
    hide Ledgered, At, EntryText;
  }

  lemma {:induction false} IdlesRegrown(env: Env, o: Origin, g: Progress, files: seq<string>, now: int)
    requires Regrown(o, g.st, [])
    ensures Regrown(o, Idles(env, g, files, now).st, [])
    decreases |files|
  {
    hide Regrown, Ready, Process, Stacks.Flush;
    if files != [] {
      var (stacks, pending) := Stacks.Flush(g.st.stacks, files[0]);
      var released := g.st.released + Stacks.Opt(pending);
      TakenReady(o, g.st, files[0], released);
      assert g.st.(stacks := g.st.stacks) == g.st;
      if pending.Some? { ProcessRegrown(env, o, g.(st := g.st.(stacks := stacks, released := released)), pending.value, [], now); }
      IdlesRegrown(env, o, IdleOne(env, g, files[0], now), files[1..], now);
    }
  }

  lemma {:induction false} FlushOpenRegrown(env: Env, o: Origin, g: Progress, files: seq<string>, now: int)
    requires Regrown(o, g.st, [])
    ensures Regrown(o, FlushOpen(env, g, files, now).st, [])
    decreases |files|
  {
    hide Regrown, Ready, Process, Stacks.Flush;
    if files != [] && !g.failed {
      var (stacks, pending) := Stacks.Flush(g.st.stacks, files[0]);
      var released := g.st.released + Stacks.Opt(pending);
      TakenReady(o, g.st, files[0], released);
      if pending.Some? { ProcessRegrown(env, o, g.(st := g.st.(stacks := stacks, released := released)), pending.value, [], now); }
      FlushOpenRegrown(env, o, FlushOne(env, g, files[0], now), files[1..], now);
    }
  }

  /** Starting over another file. */
  lemma ResetElsewhere(env: Env, o: Origin, g: Progress, path: string, rest: seq<FileLine>, now: int)
    requires Regrown(o, g.st, rest) && path != o.path
    ensures Regrown(o, ResetOne(env, g, path, now).st, rest)
  {
    var (stacks, pending) := Stacks.Flush(g.st.stacks, path);
    var st := g.st.(batchOffsets := g.st.batchOffsets[path := 0], stacks := stacks);
    assert Ledgered(o, st) && Done(st, o.path) == Done(g.st, o.path) by { hide SettledSince, CoveredTo, TrailSince, SafeUpTo; }
    OpenAt(g.st, stacks, o.content, o.path, Done(g.st, o.path), rest);
    SameAt(g.st.(stacks := stacks), st, o.content, o.path, Done(g.st, o.path), rest);
    assert HeldOwn(stacks);
    hide Ledgered, At, Process, Done;
    if pending.Some? {
      assert pending.value.path == path;
      ProcessRegrown(env, o, g.(st := st), pending.value.(endOffset := 0), rest, now);
    }
  }

  lemma {:induction false} ResetsElsewhere(env: Env, o: Origin, g: Progress, paths: seq<string>, rest: seq<FileLine>, now: int)
    requires Regrown(o, g.st, rest) && o.path !in paths
    ensures Regrown(o, Resets(env, g, paths, now).st, rest)
    decreases |paths|
  {
    hide Regrown, ResetOne;
    if paths != [] {
      ResetElsewhere(env, o, g, paths[0], rest, now);
      ResetsElsewhere(env, o, ResetOne(env, g, paths[0], now), paths[1..], rest, now);
    }
  }

  /** A poll after its resets. */
  lemma RestOfPoll(env: Env, o: Origin, g: Progress, lines: seq<FileLine>, now: int)
    requires Regrown(o, g.st, ForPath(lines, o.path))
    ensures Regrown(o, Finish(env, Idles(env, FeedLines(env, g, lines, now), env.files, now)).st, [])
  {
    hide Regrown, FeedLines, Idles, Commit;
    FeedRegrown(env, o, g, lines, now);
    var g1 := FeedLines(env, g, lines, now);
    IdlesRegrown(env, o, g1, env.files, now);
    CommitRegrown(env, o, Idles(env, g1, env.files, now).st, []);
  }

  lemma PollRegrown(env: Env, o: Origin, st: AgentState, obs: string -> Observation, now: int)
    requires ValidEnv(env) && Regrown(o, st, [])
    requires o.path in env.files ==> Appending(st.tailer, o.path, o.content, obs(o.path))
    ensures Regrown(o, Poll(env, st, obs, now).st, [])
  {
    var r := ReadNew(st.tailer, env.files, obs);
    var g := Progress(st.(tailer := r.tailer), [], r.failed);
    ReadAt(st, o.content, o.path, Done(st, o.path), env.files, obs);
    ReadKeepsOffsets(Reading(st.tailer, [], [], false), env.files, obs);
    ReadLedgered(o, st, r.tailer);
    hide Ledgered, At, ReadNew, Resets, FeedLines, Idles, Finish;
    assert Regrown(o, g.st, ForPath(r.lines, o.path));
    hide Regrown;
    ResetsElsewhere(env, o, g, r.resets, ForPath(r.lines, o.path), now);
    RestOfPoll(env, o, Resets(env, g, r.resets, now), r.lines, now);
  }

  lemma ReadLedgered(o: Origin, st: AgentState, tailer: TailerState)
    requires Ledgered(o, st) && tailer.offsets == st.tailer.offsets
    ensures Ledgered(o, st.(tailer := tailer)) && Done(st.(tailer := tailer), o.path) == Done(st, o.path)
  {
    hide SettledSince, CoveredTo, TrailSince, SafeUpTo;
  }

  // ---------------------------------------------------------------- the commits of a run

  /** The committed offsets are what the commits carried out make of none, now and at every
      durable moment; and nothing durable is ahead of memory. */
  ghost predicate Recorded(st: AgentState) {
    && |st.log| == |st.fates| && st.tailer.offsets == SaveAll(map[], st.commits)
    && forall d | d in st.trail ::
         |d.log| == |d.fates| <= |st.log| && |d.commits| <= |st.commits| && d.offsets == SaveAll(map[], d.commits)
  }

  lemma SaveAllSnoc(commits: seq<OffsetsCommit>, read: Offsets, safe: map<string, int>)
    requires CommitAllowed(TailerState(SaveAll(map[], commits), read), safe)
    ensures SaveAll(map[], commits + [OffsetsCommit(read, safe)]) == Candidate(TailerState(SaveAll(map[], commits), read), safe)
  {
    assert (commits + [OffsetsCommit(read, safe)])[..|commits|] == commits;
    hide Candidate;
  }

  lemma SaveRecorded(env: Env, st: AgentState)
    requires Recorded(st)
    ensures Recorded(Commit(env, st).0)
  {
    if CommitAllowed(st.tailer, st.batchOffsets) {
      SaveAllSnoc(st.commits, st.tailer.readOffsets, st.batchOffsets);
      assert st.tailer == TailerState(SaveAll(map[], st.commits), st.tailer.readOffsets);
      CommitIs(env, st);
    }
    hide SaveAll, Candidate, CommitAllowed, Unsaved;
  }

  lemma RecordedClosed(env: Env, now: int)
    ensures Closed(env, now, Recorded)
  {
    hide Recorded;
    forall st, m | Recorded(st) && Enabled(st, m) ensures Recorded(Do(env, now, st, m)) {
      match m
      case Take(line) => TakeRecorded(env, st, line, now);
      case Save => SaveRecorded(env, st);
      case Put => PutRecorded(env, st);
      case Clear => SameRecorded(st, Do(env, now, st, m));
      case Shift(_, _, _, _) => SameRecorded(st, Do(env, now, st, m));
    }
  }

  lemma TakeRecorded(env: Env, st: AgentState, line: FileLine, now: int)
    requires Recorded(st)
    ensures Recorded(Record(env, st, line, now))
  {
    RecordFrame(env, st, line, now);
    hide Record, SaveAll, Decide;
  }

  lemma PutRecorded(env: Env, st: AgentState)
    requires Recorded(st)
    ensures Recorded(WritePending(env, st).0)
  {
    hide SaveAll, Publish, Names.NewBatchName, Unsaved;
  }

  lemma SameRecorded(a: AgentState, b: AgentState)
    requires Recorded(a) && b.log == a.log && b.fates == a.fates && b.commits == a.commits
    requires b.tailer.offsets == a.tailer.offsets && b.trail == a.trail
    ensures Recorded(b)
  {
    hide SaveAll;
  }

  lemma NextRecorded(env: Env, st: AgentState, ev: Event)
    requires Recorded(st)
    ensures Recorded(Next(env, st, ev))
  {
    hide Closed, Poll, FlushBatch, Agents.Flush, Apply, RecoverClaims, SaveAll, Unsaved;
    if ev.Polled? || ev.Flushed? || ev.ShutDown? {
      RecordedClosed(env, TimeOf(ev));
      EventKeeps(env, Recorded, st, ev);
    } else if ev.Crashed? && ev.at < |st.trail| {
      assert st.trail[ev.at] in st.trail;
    }
  }

  /** In every run, whatever the files do, the committed offsets are what its commits make of none. */
  lemma {:induction false} CommitsOfRun(env: Env, evs: seq<Event>)
    ensures Recorded(Run(env, FRESH, evs))
  {
    hide Next;
    if evs == [] {
      assert SaveAll(map[], []) == map[];
    } else {
      hide Recorded;
      CommitsOfRun(env, evs[..|evs| - 1]);
      NextRecorded(env, Run(env, FRESH, evs[..|evs| - 1]), evs[|evs| - 1]);
    }
  }

  // ---------------------------------------------------------------- the poll that starts a file over

  lemma ReadOneApart(r: Reading, q: string, o: Observation, p: string)
    requires p != q
    ensures var s := ReadOne(r, q, o);
            && Get(s.tailer.readOffsets, p) == Get(r.tailer.readOffsets, p)
            && (p in s.tailer.readOffsets <==> p in r.tailer.readOffsets)
            && ForPath(s.lines, p) == ForPath(r.lines, p) && (p in s.resets <==> p in r.resets)
  {
    assert r.lines + [] == r.lines;
    if o.Opened? && o.seekOk {
      var known := Get(r.tailer.readOffsets, q);
      var offset := if o.size < known then 0 else known;
      if offset <= |o.data| {
        LinesShape(q, o.data, offset);
        ForPathUniform(Lines(q, o.data, offset), q, p);
        ForPathAppend(r.lines, Lines(q, o.data, offset), p);
        hide Lines, Stop, ForPath;
      }
    }
  }

  lemma {:induction false} ReadAllApart(r: Reading, files: seq<string>, obs: string -> Observation, p: string)
    requires p !in files
    ensures var s := ReadAll(r, files, obs);
            && Get(s.tailer.readOffsets, p) == Get(r.tailer.readOffsets, p)
            && (p in s.tailer.readOffsets <==> p in r.tailer.readOffsets)
            && ForPath(s.lines, p) == ForPath(r.lines, p) && (p in s.resets <==> p in r.resets)
    decreases |files|
  {
    hide ReadOne, ForPath;
    if files != [] {
      assert files[0] in files && forall x | x in files[1..] :: x in files;
      ReadOneApart(r, files[0], obs(files[0]), p);
      ReadAllApart(ReadOne(r, files[0], obs(files[0])), files[1..], obs, p);
    }
  }

  /** The observation shows that the file was cut; what it delivers is new content. */
  predicate ShowsCut(t: TailerState, p: string, o: Observation, w: string) {
    o.Opened? && o.size < Get(t.readOffsets, p) && o.data <= w
  }

  /** A file that has been started over: read from 0 up to a line boundary of the new content. */
  predicate ReadAnew(r: Reading, p: string, w: string) {
    var read := Get(r.tailer.readOffsets, p);
    && p in r.resets && p in r.tailer.readOffsets && read <= |w| && Boundary(w, read)
    && ForPath(r.lines, p) == Between(p, w, 0, read)
  }

  lemma ReadOneAnew(r: Reading, p: string, o: Observation, w: string)
    requires ShowsCut(r.tailer, p, o, w) && ForPath(r.lines, p) == []
    ensures ReadAnew(ReadOne(r, p, o), p, w)
  {
    if o.seekOk {
      ResetReads(r, p, o, w);
      var more := Between(p, w, 0, Stop(o.data, 0));
      LinesShape(p, w[..Stop(o.data, 0)], 0);
      ForPathUniform(more, p, p);
      ForPathAppend(r.lines, more, p);
      assert [] + more == more;
      hide Between, ForPath, Stop, Lines;
    } else {
      BetweenHead(p, w, 0, 0);
      hide Between;
    }
  }

  lemma {:induction false} ReadPathAnew(r: Reading, files: seq<string>, obs: string -> Observation, p: string, w: string)
    requires Distinct(files) && p in files && ShowsCut(r.tailer, p, obs(p), w) && ForPath(r.lines, p) == []
    ensures ReadAnew(ReadAll(r, files, obs), p, w)
    decreases |files|
  {
    var q := files[0];
    var r1 := ReadOne(r, q, obs(q));
    HeadApart(files);
    if q == p {
      ReadOneAnew(r, p, obs(p), w);
      ReadAllApart(r1, files[1..], obs, p);
      hide ReadOne, ForPath, Between;
    } else {
      ReadOneApart(r, q, obs(q), p);
      hide ReadOne, ForPath, Between, Distinct;
      ReadPathAnew(r1, files[1..], obs, p, w);
    }
  }

  /** The resets of a poll that come before that of `p`. */
  function Before(paths: seq<string>, p: string): seq<string> {
    if paths == [] || paths[0] == p then [] else [paths[0]] + Before(paths[1..], p)
  }

  /** The agent in the poll when the turn of `p` to start over comes. */
  function AtReset(env: Env, st: AgentState, obs: string -> Observation, now: int, p: string): AgentState {
    var r := ReadNew(st.tailer, env.files, obs);
    Resets(env, Progress(st.(tailer := r.tailer), [], r.failed), Before(r.resets, p), now).st
  }

  function OriginAt(st: AgentState, p: string, w: string): Origin {
    Origin(p, w, st.commits, |st.log|)
  }

  /** What is needed of the state when the turn of `p` comes. */
  ghost predicate Cut(st: AgentState, p: string, w: string) {
    var read := Get(st.tailer.readOffsets, p);
    && Recorded(st) && HeldOwn(st.stacks)
    && p in st.tailer.readOffsets && read <= |w| && Boundary(w, read)
  }

  lemma NothingSince(o: Origin, commits: seq<OffsetsCommit>, log: seq<Entry>, fates: seq<Fate>)
    requires commits == o.commits && |log| == |fates| == o.entries
    ensures SettledSince(o, commits, log, fates) && CommitsSince(o, commits) == []
    ensures CoveredTo(log[o.entries..], fates[o.entries..], PROCESSED, o.content, o.path, 0)
  {
  }

  /** Once the file has been started over, nothing of the new content has been processed. */
  lemma BeginsAnew(st: AgentState, p: string, w: string)
    requires Cut(st, p, w)
    ensures var o := OriginAt(st, p, w);
            var (stacks, pending) := Stacks.Flush(st.stacks, p);
            var s := st.(batchOffsets := st.batchOffsets[p := 0], stacks := stacks);
            && Regrown(o, s, Between(p, w, 0, Get(st.tailer.readOffsets, p))) && Done(s, p) == 0
            && (pending.Some? ==> pending.value.path == p)
  {
    var o := OriginAt(st, p, w);
    hide CoveredTo, EntryText, Between;
    NothingSince(o, st.commits, st.log, st.fates);
    forall d | d in st.trail && IsSince(o, d) ensures SettledSince(o, d.commits, d.log, d.fates) {
      assert d.commits == o.commits;
      NothingSince(o, d.commits, d.log, d.fates);
    }
    hide SettledSince, Recorded;
  }

  lemma ResetHere(env: Env, g: Progress, p: string, w: string, now: int)
    requires Cut(g.st, p, w)
    ensures Regrown(OriginAt(g.st, p, w), ResetOne(env, g, p, now).st, Between(p, w, 0, Get(g.st.tailer.readOffsets, p)))
  {
    var o, rest := OriginAt(g.st, p, w), Between(p, w, 0, Get(g.st.tailer.readOffsets, p));
    var (stacks, pending) := Stacks.Flush(g.st.stacks, p);
    var st := g.st.(batchOffsets := g.st.batchOffsets[p := 0], stacks := stacks);
    BeginsAnew(g.st, p, w);
    hide Ledgered, At, Process, Between, Recorded, Done;
    if pending.Some? {
      assert Ready(o, st, pending.value.(endOffset := 0), rest);
      ProcessRegrown(env, o, g.(st := st), pending.value.(endOffset := 0), rest, now);
    }
  }

  /** Starting over another file first. */
  lemma CutElsewhere(env: Env, g: Progress, path: string, p: string, w: string, now: int)
    requires Cut(g.st, p, w) && path != p
    ensures var s := ResetOne(env, g, path, now).st;
            Cut(s, p, w) && s.tailer.readOffsets == g.st.tailer.readOffsets
  {
    hide Recorded, Closed, Process, Record;
    RecordedClosed(env, now);
    ResetOneKeeps(env, now, Recorded, g, path);
    var (stacks, pending) := Stacks.Flush(g.st.stacks, path);
    if pending.Some? {
      ProcessFrame(env, g.(st := g.st.(batchOffsets := g.st.batchOffsets[path := 0], stacks := stacks)),
                   pending.value.(endOffset := 0), now);
    }
  }

  lemma {:induction false} ResetsAnew(env: Env, g: Progress, paths: seq<string>, p: string, w: string, now: int)
    requires Cut(g.st, p, w) && Distinct(paths) && p in paths
    ensures var s := Resets(env, g, Before(paths, p), now).st;
            && s.tailer.readOffsets == g.st.tailer.readOffsets && Cut(s, p, w)
            && Regrown(OriginAt(s, p, w), Resets(env, g, paths, now).st, Between(p, w, 0, Get(g.st.tailer.readOffsets, p)))
    decreases |paths|
  {
    hide Recorded, HeldOwn, Regrown, ResetOne, Between;
    HeadApart(paths);
    if paths[0] == p {
      ResetHere(env, g, p, w, now);
      ResetsElsewhere(env, OriginAt(g.st, p, w), ResetOne(env, g, p, now), paths[1..],
                      Between(p, w, 0, Get(g.st.tailer.readOffsets, p)), now);
    } else {
      CutElsewhere(env, g, paths[0], p, w, now);
      ResetsAnew(env, ResetOne(env, g, paths[0], now), paths[1..], p, w, now);
      assert Before(paths, p)[0] == paths[0] && Before(paths, p)[1..] == Before(paths[1..], p);
    }
  }

  /** The poll that finds a file cut: from its turn to start over on, the file is regrown. */
  lemma PollAnew(env: Env, st: AgentState, obs: string -> Observation, now: int, p: string, w: string)
    requires ValidEnv(env) && p in env.files && ShowsCut(st.tailer, p, obs(p), w) && Recorded(st) && HeldOwn(st.stacks)
    ensures Regrown(OriginAt(AtReset(env, st, obs, now, p), p, w), Poll(env, st, obs, now).st, [])
    ensures Recorded(AtReset(env, st, obs, now, p))
  {
    var r0 := Reading(st.tailer, [], [], false);
    var r := ReadNew(st.tailer, env.files, obs);
    var g := Progress(st.(tailer := r.tailer), [], r.failed);
    ReadPathAnew(r0, env.files, obs, p, w);
    AgentShrinks.ResetsDistinct(r0, env.files, obs);
    ReadKeepsOffsets(r0, env.files, obs);
    SameRecorded(st, g.st);
    assert Cut(g.st, p, w);
    hide HeldOwn, Recorded, Regrown, ReadAll, Resets, FeedLines, Idles, Finish, ForPath, Between;
    ResetsAnew(env, g, r.resets, p, w, now);
    RestOfPoll(env, OriginAt(AtReset(env, st, obs, now, p), p, w), Resets(env, g, r.resets, now), r.lines, now);
  }

  // ---------------------------------------------------------------- runs behind it

  /** The durable committed offset lies above what the commits say has been processed. */
  predicate Overtaken(o: Origin, d: Durable)
    requires IsSince(o, d)
  {
    SafeUpTo(CommitsSince(o, d.commits), o.path) < Get(d.offsets, o.path)
  }

  /** From `st` on the file only grows, and crashes fall back to moments behind the origin at which
      it is not overtaken. The other files may do anything. */
  ghost predicate GrowsSince(env: Env, o: Origin, st: AgentState, evs: seq<Event>) {
    evs == [] ||
    var before, ev := evs[..|evs| - 1], evs[|evs| - 1];
    var s := Run(env, st, before);
    && GrowsSince(env, o, st, before)
    && (ev.Polled? && o.path in env.files ==> Appending(s.tailer, o.path, o.content, ev.obs(o.path)))
    && (ev.Crashed? && ev.at < |s.trail| ==> IsSince(o, s.trail[ev.at]) && !Overtaken(o, s.trail[ev.at]))
  }

  /** What the commits since the origin have made of the committed offset. */
  lemma OffsetSince(o: Origin, commits: seq<OffsetsCommit>)
    requires o.commits <= commits && SafeRises(CommitsSince(o, commits), o.path)
    ensures var since := CommitsSince(o, commits);
            var c, k, r := OldOffset(o), SafeUpTo(since, o.path), Get(SaveAll(map[], commits), o.path);
            r == if AllLeaveAlone(c, since, o.path) && k < c then c else k
  {
    var since := CommitsSince(o, commits);
    assert commits == o.commits + since;
    SaveMore(map[], o.commits, since);
    SaveAllMeaning(SaveAll(map[], o.commits), since, o.path);
    hide SaveAll, AllLeaveAlone, SafeRises;
  }

  lemma BootRegrown(o: Origin, st: AgentState, d: Durable, stuck: set<string>, nanos: nat)
    requires IsSince(o, d) && SettledSince(o, d.commits, d.log, d.fates) && d.offsets == SaveAll(map[], d.commits)
    requires !Overtaken(o, d)
    ensures Regrown(o, Boot(st, d, stuck, nanos), [])
  {
    var k := SafeUpTo(CommitsSince(o, d.commits), o.path);
    OffsetSince(o, d.commits);
    assert Get(d.offsets, o.path) == k;
    BootCoverage(o, d.log, d.fates, k);
    BetweenHead(o.path, o.content, k, k);
    hide CoveredTo, SafeUpTo, SafeRises, SaveAll, RecoverClaims, EntryText, Between, AllLeaveAlone;
    var s := Boot(st, d, stuck, nanos);
    assert SettledSince(o, s.commits, s.log, s.fates);
  }

  lemma BootCoverage(o: Origin, log: seq<Entry>, fates: seq<Fate>, k: int)
    requires o.entries <= |log| == |fates| && CoveredTo(log[o.entries..], fates[o.entries..], SETTLED, o.content, o.path, k)
    ensures CoveredTo(log[o.entries..], Moved(fates, Lost)[o.entries..], SETTLED, o.content, o.path, k)
    ensures CoveredTo(log[o.entries..], Moved(fates, Lost)[o.entries..], PROCESSED, o.content, o.path, k)
  {
    hide CoveredTo;
    var l, f, g := log[o.entries..], fates[o.entries..], Moved(fates, Lost)[o.entries..];
    CoveredMore(l, f, SETTLED, l, g, SETTLED, o.content, o.path, k);
    CoveredMore(l, f, SETTLED, l, g, PROCESSED, o.content, o.path, k);
  }

  lemma SameRegrown(o: Origin, a: AgentState, b: AgentState)
    requires Regrown(o, a, []) && b.tailer == a.tailer && b.stacks == a.stacks && b.batchOffsets == a.batchOffsets
    requires b.log == a.log && b.fates == a.fates && b.commits == a.commits && b.settled == a.settled && b.trail == a.trail
    ensures Regrown(o, b, [])
  {
    hide SettledSince, CoveredTo, TrailSince, SafeUpTo;
    SameAt(a, b, o.content, o.path, Done(a, o.path), []);
    hide At;
  }

  lemma ActRegrown(o: Origin, st: AgentState, disk: Eviction.Disk)
    requires Regrown(o, st, [])
    ensures Regrown(o, Mark(st.(disk := disk)), [])
  {
    var s := st.(disk := disk);
    SameRegrown(o, st, s);
    MarkSince(o, s);
    SameAt(s, Mark(s), o.content, o.path, Done(s, o.path), []);
    DoneMark(s, o.path);
    hide Ledgered, At, Done;
  }

  lemma NextRegrown(env: Env, o: Origin, st: AgentState, ev: Event)
    requires ValidEnv(env) && Regrown(o, st, []) && Recorded(st)
    requires ev.Polled? && o.path in env.files ==> Appending(st.tailer, o.path, o.content, ev.obs(o.path))
    requires ev.Crashed? && ev.at < |st.trail| ==> IsSince(o, st.trail[ev.at]) && !Overtaken(o, st.trail[ev.at])
    ensures Regrown(o, Next(env, st, ev), [])
  {
    hide Regrown, Recorded, Poll, FlushBatch, FlushOpen, Boot, Apply, Overtaken;
    match ev
    case Polled(now, obs) => PollRegrown(env, o, st, obs, now);
    case Flushed => FlushRegrown(env, o, st, []);
    case ShutDown(now) =>
      var g := FlushOpen(env, Progress(st, [], false), env.files, now);
      FlushOpenRegrown(env, o, Progress(st, [], false), env.files, now);
      FlushRegrown(env, o, g.st, []);
    case Drained => SameRegrown(o, st, Drain(st));
    case SenderActs(op) => if !op.Write? { ActRegrown(o, st, Apply(st.disk, env.maxBytes, op)); }
    case Crashed(at, stuck, nanos) =>
      if at < |st.trail| {
        MomentOf(o, st, st.trail[at]);
        BootRegrown(o, st, st.trail[at], stuck, nanos);
      }
  }

  lemma MomentOf(o: Origin, st: AgentState, d: Durable)
    requires Regrown(o, st, []) && Recorded(st) && d in st.trail && IsSince(o, d)
    ensures SettledSince(o, d.commits, d.log, d.fates) && d.offsets == SaveAll(map[], d.commits)
  {
    hide SettledSince, At, SaveAll, SafeUpTo;
  }

  lemma {:induction false} RunRegrown(env: Env, o: Origin, st: AgentState, evs: seq<Event>)
    requires ValidEnv(env) && Regrown(o, st, []) && Recorded(st) && GrowsSince(env, o, st, evs)
    ensures Regrown(o, Run(env, st, evs), []) && Recorded(Run(env, st, evs))
  {
    hide Regrown, Recorded, Next, Appending, Overtaken, IsSince;
    if evs != [] {
      RunRegrown(env, o, st, evs[..|evs| - 1]);
      NextRegrown(env, o, Run(env, st, evs[..|evs| - 1]), evs[|evs| - 1]);
      NextRecorded(env, Run(env, st, evs[..|evs| - 1]), evs[|evs| - 1]);
    }
  }

  // ---------------------------------------------------------------- the theorems

  /** After `before`, the poll at `now` finds `p` cut and sees new content `w`; when its turn to
      start over comes, `o` is the origin; from then on the file only grows in `after`, and `d` is
      a durable moment since. */
  ghost predicate CutRun(env: Env, before: seq<Event>, now: int, obs: string -> Observation, after: seq<Event>, o: Origin, d: Durable) {
    var st := Run(env, FRESH, before);
    && o.path in env.files && ShowsCut(st.tailer, o.path, obs(o.path), o.content)
    && o == OriginAt(AtReset(env, st, obs, now, o.path), o.path, o.content)
    && GrowsSince(env, o, Poll(env, st, obs, now).st, after)
    && d in Run(env, FRESH, before + [Polled(now, obs)] + after).trail && IsSince(o, d)
  }

  lemma {:induction false} RunOn(env: Env, a: seq<Event>, ev: Event, b: seq<Event>)
    ensures Run(env, FRESH, a + [ev] + b) == Run(env, Next(env, Run(env, FRESH, a), ev), b)
    decreases |b|
  {
    hide Next;
    var evs := a + [ev] + b;
    if b == [] {
      assert evs == a + [ev] && (a + [ev])[..|a|] == a;
    } else {
      assert evs[..|evs| - 1] == a + [ev] + b[..|b| - 1] && evs[|evs| - 1] == b[|b| - 1];
      RunOn(env, a, ev, b[..|b| - 1]);
    }
  }

  lemma OwnEntries(env: Env, evs: seq<Event>)
    requires ValidEnv(env)
    ensures HeldOwn(Run(env, FRESH, evs).stacks)
  {
    hide Run;
    AgentShrinks.RefusedExactly(env, evs);
  }

  /** Whatever is durable behind the origin keeps what is said above. */
  lemma CutRunKeeps(env: Env, before: seq<Event>, now: int, obs: string -> Observation, after: seq<Event>, o: Origin, d: Durable)
    requires ValidEnv(env) && CutRun(env, before, now, obs, after, o, d)
    ensures OldOffset(o) == Get(AtReset(env, Run(env, FRESH, before), obs, now, o.path).tailer.offsets, o.path)
    ensures SettledSince(o, d.commits, d.log, d.fates) && d.offsets == SaveAll(map[], d.commits)
  {
    var st := Run(env, FRESH, before);
    CommitsOfRun(env, before);
    OwnEntries(env, before);
    PollAnew(env, st, obs, now, o.path, o.content);
    NextRecorded(env, st, Polled(now, obs));
    RunOn(env, before, Polled(now, obs), after);
    hide Run, Regrown, Poll, AtReset, GrowsSince, SettledSince, SaveAll, IsSince;
    RunRegrown(env, o, Poll(env, st, obs, now).st, after);
    MomentOf(o, Run(env, FRESH, before + [Polled(now, obs)] + after), d);
  }

  /** Every commit since the origin left the old committed offset alone, and it lies above what the
      commits carried out say has been processed. */
  predicate LeftAbove(o: Origin, d: Durable)
    requires IsSince(o, d)
  {
    var since := CommitsSince(o, d.commits);
    AllLeaveAlone(OldOffset(o), since, o.path) && SafeUpTo(since, o.path) < OldOffset(o)
  }

  /** The line of the new content ending at `e` is held by an entry since the origin that was
      filtered, or whose record is published or dropped. */
  ghost predicate SettledAnew(o: Origin, d: Durable, e: int) {
    o.entries <= |d.log| == |d.fates| && Settled(d.log[o.entries..], d.fates[o.entries..], SETTLED, o.path, e)
  }

  /** Shrinking files. In a run in which a poll finds a file cut and from then on it only grows,
      whatever the other files do and whatever fails: let `c` be the committed offset when the
      file is started over, and `k` the last safe offset that a commit since then has carried
      out, or 0. At every durable moment since, the committed offset of the file is `c` if every
      commit since then left it alone and `c` lies above `k`, and else it is `k`. Every new line
      up to `k` is settled by entries made of the new lines. So a new line behind the committed
      offset can be lost only if every commit left the old offset alone and the line lies above
      `k` and not above `c`; and a restart misses the first new line behind `k` if and only if
      every commit left the old offset alone, `c` lies above `k`, and there is such a line. */
  lemma LossOnlyIfLeftAlone(env: Env, before: seq<Event>, now: int, obs: string -> Observation, after: seq<Event>, o: Origin, d: Durable)
    requires ValidEnv(env) && CutRun(env, before, now, obs, after, o, d)
    ensures OldOffset(o) == Get(AtReset(env, Run(env, FRESH, before), obs, now, o.path).tailer.offsets, o.path)
    ensures var w, since := o.content, CommitsSince(o, d.commits);
            var c, k, r := OldOffset(o), SafeUpTo(since, o.path), Get(d.offsets, o.path);
            && SafeRises(since, o.path) && k <= |w| && Boundary(w, k)
            && r == (if LeftAbove(o, d) then c else k)
            && (forall e | LineBreak(w, e) && e <= k :: SettledAnew(o, d, e))
            && (forall e | LineBreak(w, e) && e <= r :: SettledAnew(o, d, e) || (LeftAbove(o, d) && k < e <= c))
            && (MissesLine(w, k, r) <==> LeftAbove(o, d) && LineEnd(w, k) != 0)
    ensures NewEntries(o, d.log) && Placed(d.log, d.fates, d.disk.published, d.dropped, d.crashed, d.unsaved)
  {
    CutRunKeeps(env, before, now, obs, after, o, d);
    RunBooks(env, before + [Polled(now, obs)] + after);
    BooksTrail(Run(env, FRESH, before + [Polled(now, obs)] + after));
    hide Run, AtReset, GrowsSince, Books, AllLeaveAlone, SafeRises, SafeUpTo, SaveAll, Settled, NewEntries, Placed, LineEnd, OldOffset;
    OffsetSince(o, d.commits);
  }

  /** And where that is not so, nothing is lost: whatever the file delivers as it grows on, each
      complete line was settled before the crash or is read by the restarted tailer, which begins
      on a line boundary. */
  lemma RestartAfterCut(env: Env, before: seq<Event>, now: int, obs: string -> Observation, after: seq<Event>, o: Origin, d: Durable,
                        later: string -> Observation, e: int)
    requires ValidEnv(env) && CutRun(env, before, now, obs, after, o, d) && !LeftAbove(o, d)
    requires Appending(TailerState(d.offsets, d.offsets), o.path, o.content, later(o.path))
    requires later(o.path).Opened? && later(o.path).seekOk && LineBreak(o.content, e) && e <= |later(o.path).data|
    ensures Boundary(o.content, Get(d.offsets, o.path))
    ensures SettledAnew(o, d, e)
         || exists l :: l in ReadNew(TailerState(d.offsets, d.offsets), env.files, later).lines && l.path == o.path && l.endOffset == e
  {
    LossOnlyIfLeftAlone(env, before, now, obs, after, o, d);
    hide Run, AtReset, GrowsSince, LeftAbove, SafeUpTo, SafeRises, SettledAnew, NewEntries, Placed, ReadNew, MissesLine, IsSince;
    if e > Get(d.offsets, o.path) {
      var l := RestartReads(env.files, d.offsets, later, o.path, o.content, e);
    }
  }
}
