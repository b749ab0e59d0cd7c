/**
 The pipeline refines a one-shot specification. Without crashes, and as long as
 no entry is released part-way by an idle or shutdown flush, the entries a file
 gave are the grouping of its lines, whatever the poll schedule, the batch size
 and the failures; so what it contributes is grouped, filtered and processed as
 if the whole file had been read at once.
 */
module AgentRefinement {
  import opened Tailing
  import opened Stacks
  import opened Schema
  import opened Processing
  import opened Eviction
  import opened BatchStores
  import opened Agents
  import opened AgentSafety
  import opened AgentSteps
  import opened AgentRuns
  import opened AgentBooks
  import opened AgentQueue
  import opened AgentRestart
  import CutFiles

  /** The entries that file `p` gave, in order. */
  function LogFor(log: seq<Entry>, p: string): seq<FileLine> {
    if log == [] then []
    else LogFor(log[..|log| - 1], p) + (if log[|log| - 1].line.path == p then [log[|log| - 1].line] else [])
  }

  lemma LogForSnoc(log: seq<Entry>, x: Entry, p: string)
    ensures LogFor(log + [x], p) == LogFor(log, p) + (if x.line.path == p then [x.line] else [])
  {
    assert (log + [x])[..|log|] == log;
  }

  // ---------------------------------------------------------------- the grouping invariant

  /** Up to offset `fed` of `w` the entries given out, those in flight and the one held back are
      the grouping of the lines; and where nothing is held back, no continuation follows an entry. */
  predicate Grouped(log: seq<Entry>, stacks: StackState, w: string, p: string, flight: seq<FileLine>, fed: int) {
    && 0 <= fed <= |w|
    && var ls := Between(p, w, 0, fed);
    && LogFor(log, p) + flight + Opt(Open(stacks, p)) == Entries(ls)
    && (p in stacks.pending ==> HasOpen(ls))
    && (p !in stacks.pending && HasOpen(ls) ==> NewStart(Lines(p, w, fed)))
  }

  predicate GroupedAt(st: AgentState, w: string, p: string) {
    Grouped(st.log, st.stacks, w, p, [], FedTo(st, p, Done(st, p)))
  }

  /** The entry `x` was not released part-way: the next line of its file starts a new entry. */
  predicate Complete(w: string, x: FileLine) {
    0 <= x.endOffset <= |w| && NewStart(Lines(x.path, w, x.endOffset))
  }

  ghost predicate ReleasedWhole(W: World, released: seq<FileLine>) {
    forall x | x in released :: Complete(W(x.path), x)
  }

  ghost predicate AllGrouped(st: AgentState, W: World) {
    ReleasedWhole(W, st.released) ==> forall p :: GroupedAt(st, W(p), p)
  }

  // ---------------------------------------------------------------- one line

  /** The line just behind `fed` is the next of the remaining lines. */
  lemma NextIs(p: string, w: string, fed: nat, l: FileLine)
    requires fed < l.endOffset <= |w| && w[l.endOffset - 1] == '\n' && Between(p, w, fed, l.endOffset) == [l]
    requires Boundary(w, fed)
    ensures Lines(p, w, fed) != [] && Lines(p, w, fed)[0] == l
    ensures Between(p, w, 0, l.endOffset) == Between(p, w, 0, fed) + [l]
  {
    hide Lines, Between;
    LinesSplit(p, w, fed, l.endOffset);
    BetweenSplit(p, w, 0, fed, l.endOffset);
  }

  /** The assembler's rule and the grouping's rule agree on one more line. */
  lemma GroupedGrows(log: seq<Entry>, stacks: StackState, w: string, line: FileLine, fed: nat, now: int)
    requires Grouped(log, stacks, w, line.path, [], fed)
    requires fed < line.endOffset <= |w| && w[line.endOffset - 1] == '\n' && Boundary(w, fed)
    requires Between(line.path, w, fed, line.endOffset) == [line]
    ensures var (stacks2, completed) := Add(stacks, line, now);
            Grouped(log, stacks2, w, line.path, completed, line.endOffset)
  {
    var p := line.path;
    var ls := Between(p, w, 0, fed);
    NextIs(p, w, fed, line);
    EntriesSnoc(ls, line);
    OpenSnoc(ls, line);
    hide IsContinuation, Entries, HasOpen, Between, Lines, Add, LogFor;
    assert LogFor(log, p) + [] == LogFor(log, p);
    GivenSnoc(stacks, LogFor(log, p), line, now, Entries(ls));
  }

  // ---------------------------------------------------------------- processing one entry

  lemma DoneAfterCommit(env: Env, st: AgentState, p: string)
    ensures Done(Commit(env, st).0, p) == Done(st, p)
  {
    if CommitAllowed(st.tailer, st.batchOffsets) {
      DoneSaved(st, p);
      CommitIs(env, st);
    }
    hide CommitAllowed, Candidate, AgentSafety.Saved;
  }

  /** A flush moves no file's processed offset, whatever fails and whatever the files do. */
  lemma DoneAfterFlush(env: Env, st: AgentState, p: string)
    ensures Done(FlushBatch(env, st).st, p) == Done(st, p)
  {
    hide Commit, AfterFlush;
    DoneAfterCommit(env, st, p);
    var st1 := WritePending(env, st).0;
    assert Done(st1, p) == Done(st, p) by { hide Names.NewBatchName, Publish; }
    hide WritePending;
    DoneAfterCommit(env, st1, p);
  }

  /** The entry in flight becomes the last one of the log. */
  lemma Landed(log: seq<Entry>, stacks: StackState, w: string, p: string, x: Entry, fed: int)
    requires Grouped(log, stacks, w, p, if p == x.line.path then [x.line] else [], fed)
    ensures Grouped(log + [x], stacks, w, p, [], fed)
  {
    hide LogFor, Entries, Between, Lines, HasOpen, NewStart;
    LogForSnoc(log, x, p);
    var more := if p == x.line.path then [x.line] else [];
    assert (LogFor(log, p) + more) + [] == LogFor(log, p) + more;
  }

  lemma ProcessGroups(env: Env, g: Progress, W: World, queue: seq<FileLine>, x: FileLine, now: int, p: string)
    requires Inflight(g.st, W, queue, x)
    requires Grouped(g.st.log, g.st.stacks, W(p), p, if p == x.path then [x] else [],
                     FedTo(g.st, p, if p == x.path then x.endOffset else Done(g.st, p)))
    ensures GroupedAt(Process(env, g, x, now).st, W(p), p)
  {
    hide Inflight, Grouped, Record, FlushBatch, Decide, Sound, Steady;
    ProcessFrame(env, g, x, now);
    var s := Record(env, g.st, x, now);
    assert Sound(s, W, queue) by { RecordSound(env, g.st, W, queue, x, now); }
    SoundSteady(s, W, queue);
    DoneAfterFlush(env, s, p);
    Landed(g.st.log, g.st.stacks, W(p), p, s.log[|g.st.log|], FedTo(g.st, p, if p == x.path then x.endOffset else Done(g.st, p)));
  }

  lemma SoundSteady(st: AgentState, W: World, queue: seq<FileLine>)
    requires Sound(st, W, queue)
    ensures Steady(st, W, queue)
  {
  }

  /** What the assembler does with a line keeps every file grouped, the completed entry being
      in flight. */
  lemma AddGroupsAt(st: AgentState, W: World, line: FileLine, rest: seq<FileLine>, now: int, p: string)
    requires Steady(st, W, [line] + rest) && GroupedAt(st, W(p), p)
    ensures var (stacks, completed) := Add(st.stacks, line, now);
            var st1 := st.(stacks := stacks);
            Grouped(st.log, stacks, W(p), p, if p == line.path then completed else [],
                    FedTo(st1, p, if p == line.path && completed != [] then completed[0].endOffset else Done(st, p)))
  {
    hide Grouped, Steady;
    if p == line.path {
      AddGroupsOwn(st, W, line, rest, now);
    } else {
      AddElsewhere(st.stacks, line, now);
      hide Add;
      SameOpen(st.log, st.stacks, Add(st.stacks, line, now).0, W(p), p, [], FedTo(st, p, Done(st, p)));
    }
  }

  lemma AddGroupsOwn(st: AgentState, W: World, line: FileLine, rest: seq<FileLine>, now: int)
    requires Steady(st, W, [line] + rest) && GroupedAt(st, W(line.path), line.path)
    ensures var (stacks, completed) := Add(st.stacks, line, now);
            && Grouped(st.log, stacks, W(line.path), line.path, completed, line.endOffset)
            && FedTo(st.(stacks := stacks), line.path, if completed != [] then completed[0].endOffset else Done(st, line.path))
               == line.endOffset
  {
    hide Grouped, Steady, IsContinuation, Done, Between, ForPath;
    NextLineOf(st, W, line, rest);
    GroupedGrows(st.log, st.stacks, W(line.path), line, FedTo(st, line.path, Done(st, line.path)), now);
  }

  lemma SameOpen(log: seq<Entry>, a: StackState, b: StackState, w: string, p: string, flight: seq<FileLine>, fed: int)
    requires Grouped(log, a, w, p, flight, fed) && Open(a, p) == Open(b, p)
    ensures Grouped(log, b, w, p, flight, fed) && (p in a.pending <==> p in b.pending)
  {
    hide LogFor, Entries, Between, Lines, HasOpen, NewStart;
  }

  lemma AddLineIs(env: Env, g: Progress, line: FileLine, now: int)
    ensures var (stacks, completed) := Add(g.st.stacks, line, now);
            var g1 := g.(st := g.st.(stacks := stacks));
            && |completed| <= 1
            && AddLine(env, g, line, now) == (if completed == [] then g1 else Process(env, g1, completed[0], now))
            && AddLine(env, g, line, now).st.released == g.st.released
  {
    hide Process;
    var (stacks, completed) := Add(g.st.stacks, line, now);
    var g1 := g.(st := g.st.(stacks := stacks));
    if completed != [] {
      assert completed[1..] == [];
      assert ProcessAll(env, g1, completed, now) == ProcessAll(env, Process(env, g1, completed[0], now), completed[1..], now);
      ProcessFrame(env, g1, completed[0], now);
      hide Record;
    }
  }

  lemma AddGroups(env: Env, g: Progress, W: World, line: FileLine, rest: seq<FileLine>, now: int)
    requires Sound(g.st, W, [line] + rest) && AllGrouped(g.st, W)
    ensures AllGrouped(AddLine(env, g, line, now).st, W)
  {
    hide Add, AddLine, Process, Grouped, Inflight, ReleasedWhole, Sound, Steady, Ledger, Record;
    var (stacks, completed) := Add(g.st.stacks, line, now);
    var g1 := g.(st := g.st.(stacks := stacks));
    AddLineIs(env, g, line, now);
    AddInflight(g.st, W, line, rest, now);
    SoundSteady(g.st, W, [line] + rest);
    if ReleasedWhole(W, g.st.released) {
      forall p ensures GroupedAt(AddLine(env, g, line, now).st, W(p), p) {
        AddGroupsAt(g.st, W, line, rest, now, p);
        if completed != [] {
          assert completed == [completed[0]];
          ProcessGroups(env, g1, W, rest, completed[0], now, p);
        }
      }
    }
  }

  lemma {:induction false} FeedGroups(env: Env, g: Progress, W: World, lines: seq<FileLine>, now: int)
    requires Sound(g.st, W, lines) && AllGrouped(g.st, W)
    ensures AllGrouped(FeedLines(env, g, lines, now).st, W)
    decreases |lines|
  {
    hide Sound, AllGrouped, AddLine;
    if lines != [] {
      assert [lines[0]] + lines[1..] == lines;
      AddGroups(env, g, W, lines[0], lines[1..], now);
      AddSound(env, g, W, lines[0], lines[1..], now);
      FeedGroups(env, AddLine(env, g, lines[0], now), W, lines[1..], now);
    }
  }

  // ---------------------------------------------------------------- releasing an entry

  /** An entry taken off the assembler leaves its file grouped if it is complete. */
  lemma ReleaseAt(st: AgentState, W: World, path: string, p: string)
    requires Steady(st, W, []) && GroupedAt(st, W(p), p) && path in st.stacks.pending
    requires Complete(W(path), st.stacks.pending[path]) && st.stacks.pending[path].path == path
    ensures var (stacks, pending) := Stacks.Flush(st.stacks, path);
            Grouped(st.log, stacks, W(p), p, if p == path then [pending.value] else [],
                    FedTo(st.(stacks := stacks), p, if p == path then pending.value.endOffset else Done(st, p)))
  {
    hide LogFor, Entries, Between, Lines, HasOpen, NewStart, Steady;
    if p == path {
      var x := st.stacks.pending[path];
      assert LogFor(st.log, p) + [x] + [] == LogFor(st.log, p) + [] + [x];
    }
  }

  lemma ReleaseGroups(env: Env, g: Progress, W: World, path: string, now: int)
    requires Sound(g.st, W, []) && AllGrouped(g.st, W) && path in g.st.stacks.pending
    ensures var (stacks, pending) := Stacks.Flush(g.st.stacks, path);
            var released := g.st.released + [pending.value];
            AllGrouped(Process(env, g.(st := g.st.(stacks := stacks, released := released)), pending.value, now).st, W)
  {
    hide Stacks.Flush, Process, Grouped, Inflight, Complete, Sound, Steady, Ledger, Record;
    var (stacks, pending) := Stacks.Flush(g.st.stacks, path);
    var x := g.st.stacks.pending[path];
    assert pending == Some(x) by { FlushGives(g.st.stacks, path); }
    var released := g.st.released + [x];
    var g1 := g.(st := g.st.(stacks := stacks, released := released));
    TakenOff(g.st, W, path);
    ReleasedSound(g.st.(stacks := stacks), W, [], x, released);
    SoundSteady(g.st, W, []);
    assert Process(env, g1, x, now).st.released == released by { ProcessFrame(env, g1, x, now); }
    if ReleasedWhole(W, released) {
      WholeBefore(W, g.st.released, x);
      forall p ensures GroupedAt(Process(env, g1, x, now).st, W(p), p) {
        ReleaseAt(g.st, W, path, p);
        ProcessGroups(env, g1, W, [], x, now, p);
      }
    }
  }

  lemma WholeBefore(W: World, released: seq<FileLine>, x: FileLine)
    requires ReleasedWhole(W, released + [x])
    ensures ReleasedWhole(W, released) && Complete(W(x.path), x)
  {
    assert forall y | y in released :: y in released + [x];
    assert x in released + [x];
  }

  lemma FlushGives(s: StackState, path: string)
    requires path in s.pending
    ensures Stacks.Flush(s, path).1 == Some(s.pending[path])
  {
  }

  /** Nothing to release. */
  lemma UnheldGroups(st: AgentState, W: World, path: string)
    requires AllGrouped(st, W) && path !in st.stacks.pending
    ensures AllGrouped(st.(stacks := Stacks.Flush(st.stacks, path).0), W)
  {
    hide LogFor, Entries, Between, Lines, HasOpen, NewStart, ReleasedWhole;
    var s := st.(stacks := Stacks.Flush(st.stacks, path).0);
    assert s.stacks.pending == st.stacks.pending;
    if ReleasedWhole(W, st.released) {
      forall p ensures GroupedAt(s, W(p), p) { assert GroupedAt(st, W(p), p); }
    }
  }

  lemma {:induction false} IdlesGroup(env: Env, g: Progress, W: World, files: seq<string>, now: int)
    requires Sound(g.st, W, []) && AllGrouped(g.st, W)
    ensures AllGrouped(Idles(env, g, files, now).st, W)
    decreases |files|
  {
    hide Sound, AllGrouped, Process;
    if files != [] {
      if Idle(g.st.stacks, files[0], now, IdleFor(env)) { ReleaseGroups(env, g, W, files[0], now); }
      assert g.st.(stacks := g.st.stacks) == g.st;
      IdleSound(env, g, W, files[0], now);
      IdlesGroup(env, IdleOne(env, g, files[0], now), W, files[1..], now);
    }
  }

  lemma {:induction false} FlushOpenGroups(env: Env, g: Progress, W: World, files: seq<string>, now: int)
    requires Sound(g.st, W, []) && AllGrouped(g.st, W)
    ensures AllGrouped(FlushOpen(env, g, files, now).st, W)
    decreases |files|
  {
    hide Sound, AllGrouped, Process;
    if files != [] && !g.failed {
      if files[0] in g.st.stacks.pending { ReleaseGroups(env, g, W, files[0], now); } else { UnheldGroups(g.st, W, files[0]); }
      FlushOneSound(env, g, W, files[0], now);
      FlushOpenGroups(env, FlushOne(env, g, files[0], now), W, files[1..], now);
    }
  }

  // ---------------------------------------------------------------- whole runs

  lemma SameGrouped(a: AgentState, b: AgentState, W: World)
    requires AllGrouped(a, W) && b.log == a.log && b.stacks == a.stacks && b.released == a.released
    requires forall p :: Done(b, p) == Done(a, p)
    ensures AllGrouped(b, W)
  {
    hide Grouped, Done, ReleasedWhole;
    if ReleasedWhole(W, b.released) {
      forall p ensures GroupedAt(b, W(p), p) { assert GroupedAt(a, W(p), p); }
    }
  }

  lemma FlushGroups(env: Env, st: AgentState, W: World)
    requires AllGrouped(st, W)
    ensures AllGrouped(FlushBatch(env, st).st, W)
  {
    hide AllGrouped, FlushBatch, Done;
    FlushFrame(env, st);
    forall p ensures Done(FlushBatch(env, st).st, p) == Done(st, p) { DoneAfterFlush(env, st, p); }
    SameGrouped(st, FlushBatch(env, st).st, W);
  }

  lemma CommitGroups(env: Env, st: AgentState, W: World)
    requires AllGrouped(st, W)
    ensures AllGrouped(Commit(env, st).0, W)
  {
    hide AllGrouped, Commit, Done;
    CommitFrame(env, st);
    forall p ensures Done(Commit(env, st).0, p) == Done(st, p) { DoneAfterCommit(env, st, p); }
    SameGrouped(st, Commit(env, st).0, W);
  }

  lemma ReadGroups(env: Env, st: AgentState, W: World, obs: string -> Observation)
    requires ValidEnv(env) && Sound(st, W, []) && AppendOnly(st, W, env.files, obs) && AllGrouped(st, W)
    ensures AllGrouped(st.(tailer := ReadNew(st.tailer, env.files, obs).tailer), W)
  {
    hide AllGrouped, Steady, ReadNew, AppendOnly, Ledger;
    ReadPath(st, W, env.files, obs, "");
    SameGrouped(st, st.(tailer := ReadNew(st.tailer, env.files, obs).tailer), W);
  }

  lemma PollGroups(env: Env, st: AgentState, W: World, obs: string -> Observation, now: int)
    requires ValidEnv(env) && Sound(st, W, []) && AppendOnly(st, W, env.files, obs) && AllGrouped(st, W)
    ensures AllGrouped(Poll(env, st, obs, now).st, W)
  {
    hide Sound, AllGrouped, ReadNew, FeedLines, Idles, Commit, AppendOnly;
    ReadSound(st, W, env.files, obs);
    ReadGroups(env, st, W, obs);
    var r := ReadNew(st.tailer, env.files, obs);
    var g := Progress(st.(tailer := r.tailer), [], r.failed);
    FeedGroups(env, g, W, r.lines, now);
    FeedSound(env, g, W, r.lines, now);
    var g1 := FeedLines(env, g, r.lines, now);
    IdlesGroup(env, g1, W, env.files, now);
    IdlesSound(env, g1, W, env.files, now);
    var g2 := Idles(env, g1, env.files, now);
    CommitGroups(env, g2.st, W);
  }

  lemma NextGroups(env: Env, st: AgentState, W: World, ev: Event)
    requires ValidEnv(env) && Sound(st, W, []) && AllGrouped(st, W) && !ev.Crashed?
    requires ev.Polled? ==> AppendOnly(st, W, env.files, ev.obs)
    ensures AllGrouped(Next(env, st, ev), W)
  {
    hide Sound, AllGrouped, Poll, FlushBatch, FlushOpen, Apply, AppendOnly, Steady;
    SoundSteady(st, W, []);
    match ev
    case Polled(now, obs) => PollGroups(env, st, W, obs, now);
    case Flushed => FlushGroups(env, st, W);
    case ShutDown(now) =>
      var g := FlushOpen(env, Progress(st, [], false), env.files, now);
      FlushOpenGroups(env, Progress(st, [], false), W, env.files, now);
      FlushOpenSound(env, Progress(st, [], false), W, env.files, now);
      FlushGroups(env, g.st, W);
    case Drained => SameGrouped(st, Drain(st), W);
    case SenderActs(op) => SameGrouped(st, Next(env, st, ev), W);
  }

  lemma {:induction false} RunGroups(env: Env, W: World, evs: seq<Event>)
    requires ValidEnv(env) && AppendOnlyRun(env, FRESH, W, evs) && CrashFree(evs)
    ensures AllGrouped(Run(env, FRESH, evs), W)
  {
    hide Sound, Next;
    if evs == [] {
      FreshGroups(W);
    } else {
      hide AllGrouped;
      RunGroups(env, W, evs[..|evs| - 1]);
      RunSound(env, W, evs[..|evs| - 1]);
      NextGroups(env, Run(env, FRESH, evs[..|evs| - 1]), W, evs[|evs| - 1]);
    }
  }

  lemma FreshGroups(W: World)
    ensures AllGrouped(FRESH, W)
  {
    forall p ensures GroupedAt(FRESH, W(p), p) {
      BetweenHead(p, W(p), 0, 0);
      assert Between(p, W(p), 0, 0) == [] && Entries([]) == [];
    }
  }

  lemma CrashedClosed(env: Env, now: int)
    ensures Closed(env, now, (st: AgentState) => st.crashed == [])
  {
    var I := (st: AgentState) => st.crashed == [];
    forall st, m | I(st) && Enabled(st, m) ensures I(Do(env, now, st, m)) {
      hide Decide, CommitAllowed, Candidate, Publish, Names.NewBatchName;
    }
  }

  lemma {:induction false} NothingCrashed(env: Env, evs: seq<Event>)
    requires CrashFree(evs)
    ensures Run(env, FRESH, evs).crashed == []
  {
    if evs != [] {
      var st, ev := Run(env, FRESH, evs[..|evs| - 1]), evs[|evs| - 1];
      NothingCrashed(env, evs[..|evs| - 1]);
      CrashedClosed(env, TimeOf(ev));
      var I := (st: AgentState) => st.crashed == [];
      assert I(st);
      hide Closed, Poll, FlushBatch, Agents.Flush, Apply;
      if ev.Polled? || ev.Flushed? || ev.ShutDown? { EventKeeps(env, I, st, ev); }
    }
  }

  // ---------------------------------------------------------------- the one-shot specification

  /** Grouping, filtering and processing all at once: entry `i` is decided at time `ts[i]`, when
      `ds[i]` random draws have been used. */
  function OneShot(s: Settings, entries: seq<FileLine>, ts: seq<int>, ds: seq<nat>): seq<Log>
    requires |entries| == |ts| == |ds|
  {
    if entries == [] then []
    else
      var n := |entries| - 1;
      OneShot(s, entries[..n], ts[..n], ds[..n]) + KeptBy(Decide(s, entries[n], ts[n], ds[n]).0)
  }

  /** The records kept of file `p`. */
  function KeptFor(log: seq<Entry>, p: string): seq<Log> {
    if log == [] then []
    else KeptFor(log[..|log| - 1], p) + (if log[|log| - 1].line.path == p then KeptBy(log[|log| - 1].decision) else [])
  }

  /** When the entries of file `p` were decided, and how many draws had been used. */
  function TimesFor(log: seq<Entry>, p: string): (ts: seq<int>)
    ensures |ts| == |LogFor(log, p)|
  {
    if log == [] then []
    else TimesFor(log[..|log| - 1], p) + (if log[|log| - 1].line.path == p then [log[|log| - 1].now] else [])
  }

  function DrawsFor(log: seq<Entry>, p: string): (ds: seq<nat>)
    ensures |ds| == |LogFor(log, p)|
  {
    if log == [] then []
    else DrawsFor(log[..|log| - 1], p) + (if log[|log| - 1].line.path == p then [log[|log| - 1].drawn] else [])
  }

  lemma OneShotSnoc(s: Settings, entries: seq<FileLine>, ts: seq<int>, ds: seq<nat>, e: FileLine, t: int, d: nat)
    requires |entries| == |ts| == |ds|
    ensures OneShot(s, entries + [e], ts + [t], ds + [d]) == OneShot(s, entries, ts, ds) + KeptBy(Decide(s, e, t, d).0)
  {
    hide Decide, KeptBy;
    assert (entries + [e])[..|entries|] == entries && (ts + [t])[..|entries|] == ts && (ds + [d])[..|entries|] == ds;
  }

  lemma LastFor(log: seq<Entry>, p: string)
    requires log != []
    ensures var init, x := log[..|log| - 1], log[|log| - 1];
            if x.line.path == p then
              && LogFor(log, p) == LogFor(init, p) + [x.line] && KeptFor(log, p) == KeptFor(init, p) + KeptBy(x.decision)
              && TimesFor(log, p) == TimesFor(init, p) + [x.now] && DrawsFor(log, p) == DrawsFor(init, p) + [x.drawn]
            else
              && LogFor(log, p) == LogFor(init, p) && KeptFor(log, p) == KeptFor(init, p)
              && TimesFor(log, p) == TimesFor(init, p) && DrawsFor(log, p) == DrawsFor(init, p)
  {
    hide KeptBy;
  }

  lemma {:induction false} KeptForIs(s: Settings, log: seq<Entry>, p: string)
    requires forall x | x in log :: DecidedBy(s, x)
    ensures KeptFor(log, p) == OneShot(s, LogFor(log, p), TimesFor(log, p), DrawsFor(log, p))
  {
    if log != [] {
      var init, x := log[..|log| - 1], log[|log| - 1];
      assert x in log && forall y | y in init :: y in log;
      LastFor(log, p);
      hide KeptBy, Decide, LogFor, KeptFor, TimesFor, DrawsFor, OneShot;
      KeptForIs(s, init, p);
      if x.line.path == p {
        OneShotSnoc(s, LogFor(init, p), TimesFor(init, p), DrawsFor(init, p), x.line, x.now, x.drawn);
      }
    }
  }

  // ---------------------------------------------------------------- in which order

  /** The positions of the entries of file `p` in the log. */
  function PlacesFor(log: seq<Entry>, p: string): (at: seq<nat>)
    ensures |at| == |LogFor(log, p)|
  {
    if log == [] then []
    else PlacesFor(log[..|log| - 1], p) + (if log[|log| - 1].line.path == p then [|log| - 1] else [])
  }

  /** `at` lists entries of the log in order, with their lines, times and draws. */
  predicate Listed(log: seq<Entry>, at: seq<nat>, lines: seq<FileLine>, ts: seq<int>, ds: seq<nat>) {
    && |at| == |lines| == |ts| == |ds|
    && (forall j | 0 <= j < |at| ::
          at[j] < |log| && log[at[j]].line == lines[j] && log[at[j]].now == ts[j] && log[at[j]].drawn == ds[j])
    && (forall j, k | 0 <= j < k < |at| :: at[j] < at[k])
  }

  lemma ListedMore(log: seq<Entry>, x: Entry, at: seq<nat>, lines: seq<FileLine>, ts: seq<int>, ds: seq<nat>)
    requires Listed(log, at, lines, ts, ds)
    ensures Listed(log + [x], at, lines, ts, ds)
    ensures Listed(log + [x], at + [|log|], lines + [x.line], ts + [x.now], ds + [x.drawn])
  {
  }

  /** The lists of `p` list its entries. */
  predicate ListedFor(log: seq<Entry>, p: string) {
    Listed(log, PlacesFor(log, p), LogFor(log, p), TimesFor(log, p), DrawsFor(log, p))
  }

  lemma {:induction false} PlacesForIs(log: seq<Entry>, p: string)
    ensures ListedFor(log, p)
  {
    if log != [] {
      hide ListedFor;
      PlacesForIs(log[..|log| - 1], p);
      ListedLast(log, p);
    }
  }

  lemma ListedLast(log: seq<Entry>, p: string)
    requires log != [] && ListedFor(log[..|log| - 1], p)
    ensures ListedFor(log, p)
  {
    hide Listed, LogFor, KeptFor, TimesFor, DrawsFor, PlacesFor, KeptBy;
    var init, x := log[..|log| - 1], log[|log| - 1];
    assert init + [x] == log;
    LastFor(log, p);
    LastPlace(log, p);
    ListedMore(init, x, PlacesFor(init, p), LogFor(init, p), TimesFor(init, p), DrawsFor(init, p));
  }

  lemma LastPlace(log: seq<Entry>, p: string)
    requires log != []
    ensures var n := |log| - 1;
            PlacesFor(log, p) == if log[n].line.path == p then PlacesFor(log[..n], p) + [n] else PlacesFor(log[..n], p)
  {
    hide LogFor;
  }

  /** The draws used once entry `x` has been decided. */
  function After(s: Settings, x: Entry): nat {
    Decide(s, x.line, x.now, x.drawn).1
  }

  /** No entry uses a draw that one before it has used. */
  predicate DrawnInTurn(s: Settings, log: seq<Entry>, drawn: nat) {
    && (forall i, j | 0 <= i < j < |log| :: After(s, log[i]) <= log[j].drawn)
    && (forall i | 0 <= i < |log| :: After(s, log[i]) <= drawn)
  }

  lemma TakeDrawn(env: Env, st: AgentState, line: FileLine, now: int)
    requires DrawnInTurn(env.settings, st.log, st.drawn)
    ensures DrawnInTurn(env.settings, Record(env, st, line, now).log, Record(env, st, line, now).drawn)
  {
    hide Record, Decide;
    RecordFrame(env, st, line, now);
    DrawsUsed(env, st, line, now);
    var s := Record(env, st, line, now);
    var x := s.log[|st.log|];
    assert After(env.settings, x) == s.drawn && x.drawn == st.drawn;
    hide After;
  }

  lemma DrawsUsed(env: Env, st: AgentState, line: FileLine, now: int)
    ensures var s := Record(env, st, line, now);
            s.drawn == Decide(env.settings, line, now, st.drawn).1 >= st.drawn
  {
    DecideMeaning(env.settings, line, now, st.drawn);
    hide Decide, Done;
  }

  lemma OtherSteps(env: Env, now: int, st: AgentState, m: Micro)
    requires !m.Take?
    ensures Do(env, now, st, m).log == st.log && Do(env, now, st, m).drawn == st.drawn
  {
    hide CommitAllowed, Candidate, Publish, Names.NewBatchName, Unsaved, Snapshot;
  }

  lemma DrawnClosed(env: Env, now: int)
    ensures Closed(env, now, (st: AgentState) => DrawnInTurn(env.settings, st.log, st.drawn))
  {
    var I := (st: AgentState) => DrawnInTurn(env.settings, st.log, st.drawn);
    forall st, m | I(st) && Enabled(st, m) ensures I(Do(env, now, st, m)) {
      hide DrawnInTurn, Record;
      if m.Take? {
        TakeDrawn(env, st, m.line, now);
      } else {
        OtherSteps(env, now, st, m);
        hide Do;
      }
    }
  }

  lemma {:induction false} RunDrawn(env: Env, evs: seq<Event>)
    requires CrashFree(evs)
    ensures DrawnInTurn(env.settings, Run(env, FRESH, evs).log, Run(env, FRESH, evs).drawn)
  {
    if evs != [] {
      var st, ev := Run(env, FRESH, evs[..|evs| - 1]), evs[|evs| - 1];
      RunDrawn(env, evs[..|evs| - 1]);
      DrawnClosed(env, TimeOf(ev));
      var I := (st: AgentState) => DrawnInTurn(env.settings, st.log, st.drawn);
      assert I(st);
      hide Closed, Poll, FlushBatch, Agents.Flush, Apply, DrawnInTurn;
      if ev.Polled? || ev.Flushed? || ev.ShutDown? { EventKeeps(env, I, st, ev); }
    }
  }

  /** The log has grown by entries decided at `now`. */
  predicate GrownAt(log: seq<Entry>, longer: seq<Entry>, now: int) {
    log <= longer && forall i | |log| <= i < |longer| :: longer[i].now == now
  }

  lemma GrownClosed(env: Env, now: int, log: seq<Entry>)
    ensures Closed(env, now, (st: AgentState) => GrownAt(log, st.log, now))
  {
    var I := (st: AgentState) => GrownAt(log, st.log, now);
    forall st, m | I(st) && Enabled(st, m) ensures I(Do(env, now, st, m)) {
      hide Record, Decide;
      if m.Take? {
        RecordFrame(env, st, m.line, now);
      } else {
        OtherSteps(env, now, st, m);
        hide Do;
      }
    }
  }

  /** Each event only adds entries, all decided at its own time. */
  lemma NextGrows(env: Env, st: AgentState, ev: Event)
    requires !ev.Crashed?
    ensures GrownAt(st.log, Next(env, st, ev).log, TimeOf(ev))
    ensures Next(env, st, ev).log != st.log ==> ev.Polled? || ev.ShutDown?
  {
    hide Closed, Poll, FlushBatch, Agents.Flush, Apply;
    if ev.Polled? || ev.ShutDown? {
      GrownClosed(env, TimeOf(ev), st.log);
      var I := (s: AgentState) => GrownAt(st.log, s.log, TimeOf(ev));
      assert I(st);
      EventKeeps(env, I, st, ev);
    } else if ev.Flushed? {
      FlushFrame(env, st);
    }
  }

  /** Entry `i` was decided in event `ks[i]`, a poll or shutdown, and entries follow the events. */
  predicate DecidedIn(evs: seq<Event>, ts: seq<int>, ks: seq<nat>) {
    && |ks| == |ts|
    && (forall i | 0 <= i < |ks| :: ks[i] < |evs| && (evs[ks[i]].Polled? || evs[ks[i]].ShutDown?) && evs[ks[i]].now == ts[i])
    && (forall i, j | 0 <= i < j < |ks| :: ks[i] <= ks[j])
  }

  function Times(log: seq<Entry>): (ts: seq<int>)
    ensures |ts| == |log| && forall i | 0 <= i < |log| :: ts[i] == log[i].now
  {
    seq(|log|, i requires 0 <= i < |log| => log[i].now)
  }

  lemma AllIn(evs: seq<Event>, log: seq<Entry>, longer: seq<Entry>, ks0: seq<nat>) returns (ks: seq<nat>)
    requires evs != [] && DecidedIn(evs[..|evs| - 1], Times(log), ks0)
    requires GrownAt(log, longer, TimeOf(evs[|evs| - 1]))
    requires longer != log ==> evs[|evs| - 1].Polled? || evs[|evs| - 1].ShutDown?
    ensures DecidedIn(evs, Times(longer), ks)
  {
    var n := |evs| - 1;
    ks := ks0 + seq(|longer| - |log|, _ => n);
    forall i | 0 <= i < |ks0| ensures evs[ks0[i]] == evs[..n][ks0[i]] {}
    if |longer| == |log| { assert longer == log; }
  }

  lemma {:induction false} RunInOrder(env: Env, evs: seq<Event>) returns (ks: seq<nat>)
    requires CrashFree(evs)
    ensures DecidedIn(evs, Times(Run(env, FRESH, evs).log), ks)
  {
    ks := [];
    if evs != [] {
      var n := |evs| - 1;
      var st := Run(env, FRESH, evs[..n]);
      var ks0 := RunInOrder(env, evs[..n]);
      NextGrows(env, st, evs[n]);
      hide Next;
      hide Times;
      ks := AllIn(evs, st.log, Run(env, FRESH, evs).log, ks0);
    }
  }

  /** No entry uses a draw that one before it has used. */
  predicate InTurn(s: Settings, entries: seq<FileLine>, ts: seq<int>, ds: seq<nat>)
    requires |entries| == |ts| == |ds|
  {
    forall i, j | 0 <= i < j < |entries| :: Decide(s, entries[i], ts[i], ds[i]).1 <= ds[j]
  }

  lemma FileInTurn(s: Settings, log: seq<Entry>, drawn: nat, p: string)
    requires DrawnInTurn(s, log, drawn)
    ensures InTurn(s, LogFor(log, p), TimesFor(log, p), DrawsFor(log, p))
  {
    PlacesForIs(log, p);
    hide LogFor, TimesFor, DrawsFor, PlacesFor, Decide;
    var at := PlacesFor(log, p);
    forall i, j | 0 <= i < j < |at| ensures Decide(s, LogFor(log, p)[i], TimesFor(log, p)[i], DrawsFor(log, p)[i]).1 <= DrawsFor(log, p)[j] {
      assert After(s, log[at[i]]) <= log[at[j]].drawn;
    }
  }

  lemma FileInOrder(evs: seq<Event>, log: seq<Entry>, all: seq<nat>, p: string) returns (ks: seq<nat>)
    requires DecidedIn(evs, Times(log), all)
    ensures DecidedIn(evs, TimesFor(log, p), ks)
  {
    PlacesForIs(log, p);
    hide LogFor, TimesFor, DrawsFor, PlacesFor;
    var at := PlacesFor(log, p);
    ks := seq(|at|, j requires 0 <= j < |at| => all[at[j]]);
  }

  // ---------------------------------------------------------------- whose record is whose

  /** The file that each kept record came from, in the order of the kept records. */
  function Owners(log: seq<Entry>): (owners: seq<string>)
    ensures |owners| == |Kept(log)|
  {
    if log == [] then []
    else Owners(log[..|log| - 1]) + (if log[|log| - 1].decision.Keep? then [log[|log| - 1].line.path] else [])
  }

  /** Those of the records that belong to file `p`, in order. */
  function Select(records: seq<Log>, owners: seq<string>, p: string): seq<Log>
    requires |records| == |owners|
  {
    if records == [] then []
    else
      var n := |records| - 1;
      Select(records[..n], owners[..n], p) + (if owners[n] == p then [records[n]] else [])
  }

  lemma {:induction false} KeptForSelects(log: seq<Entry>, p: string)
    ensures KeptFor(log, p) == Select(Kept(log), Owners(log), p)
  {
    if log != [] {
      var init, x := log[..|log| - 1], log[|log| - 1];
      KeptForSelects(init, p);
      if x.decision.Keep? {
        assert (Kept(init) + [x.decision.record])[..|Kept(init)|] == Kept(init);
        assert (Owners(init) + [x.line.path])[..|Kept(init)|] == Owners(init);
      } else {
        assert Kept(init) + [] == Kept(init) && Owners(init) + [] == Owners(init) && KeptFor(init, p) + [] == KeptFor(init, p);
      }
    }
  }

  // ---------------------------------------------------------------- the theorems

  /** Grouping is refined by every crash-free run: the entries a file gave, followed by the one
      held back, are the grouping of the lines handed to the assembler so far. */
  lemma RunsRefineGrouping(env: Env, W: World, evs: seq<Event>, p: string)
    requires ValidEnv(env) && AppendOnlyRun(env, FRESH, W, evs) && CrashFree(evs)
    requires ReleasedWhole(W, Run(env, FRESH, evs).released)
    ensures var st := Run(env, FRESH, evs);
            var fed := FedTo(st, p, Done(st, p));
            && 0 <= fed <= |W(p)|
            && LogFor(st.log, p) + Opt(Open(st.stacks, p)) == Entries(Between(p, W(p), 0, fed))
  {
    RunGroups(env, W, evs);
    var st := Run(env, FRESH, evs);
    hide Run, AppendOnlyRun, Entries, Between, LogFor, Lines, HasOpen, NewStart, ReleasedWhole;
    assert GroupedAt(st, W(p), p);
    assert LogFor(st.log, p) + [] + Opt(Open(st.stacks, p)) == LogFor(st.log, p) + Opt(Open(st.stacks, p));
  }

  /** File `p` has been read to its last complete line and nothing of it is held back. */
  predicate Drained(st: AgentState, w: string, p: string) {
    p !in st.stacks.pending && Done(st, p) == Stop(w, 0)
  }

  /** What a drained file gave is the grouping of all its lines. */
  lemma DrainedGrouping(env: Env, W: World, evs: seq<Event>, p: string)
    requires ValidEnv(env) && AppendOnlyRun(env, FRESH, W, evs) && CrashFree(evs)
    requires ReleasedWhole(W, Run(env, FRESH, evs).released) && Drained(Run(env, FRESH, evs), W(p), p)
    ensures LogFor(Run(env, FRESH, evs).log, p) == Entries(Lines(p, W(p), 0))
  {
    hide Run, AppendOnlyRun, Entries, Lines, Stop, LogFor, ReleasedWhole;
    RunsRefineGrouping(env, W, evs, p);
    StopLines(p, W(p), W(p), 0);
    var st := Run(env, FRESH, evs);
    assert LogFor(st.log, p) + [] == LogFor(st.log, p);
  }

  /** The pipeline refines one pass over the whole file: once a file is drained, what was kept
      of it is what one pass keeps that groups the whole file and then filters and processes
      each entry, entry `i` at the time of event `ks[i]`, a poll or shutdown, in the order of the
      events, and with draws that no entry before it has used; whatever the poll schedule, the
      batch size and the failures. And when nothing was dropped and
      nothing is left in memory, these are, in order, the published records that came from the
      file. */
  lemma PipelineRefinesOneShot(env: Env, W: World, evs: seq<Event>, p: string) returns (ts: seq<int>, ds: seq<nat>, ks: seq<nat>)
    requires ValidEnv(env) && AppendOnlyRun(env, FRESH, W, evs) && CrashFree(evs)
    requires ReleasedWhole(W, Run(env, FRESH, evs).released) && Drained(Run(env, FRESH, evs), W(p), p)
    ensures var st, entries := Run(env, FRESH, evs), Entries(Lines(p, W(p), 0));
            && |ts| == |ds| == |entries|
            && DecidedIn(evs, ts, ks) && InTurn(env.settings, entries, ts, ds)
            && KeptFor(st.log, p) == OneShot(env.settings, entries, ts, ds)
            && (st.dropped == [] && Unsaved(st) == [] ==>
                  && |Owners(st.log)| == |Records(st.disk.published)|
                  && Select(Records(st.disk.published), Owners(st.log), p) == OneShot(env.settings, entries, ts, ds))
  {
    hide Run, AppendOnlyRun, Entries, Lines, Records, ReleasedWhole, Drained, DecidedBy, TimeIn, LogFor, TimesFor, DrawsFor, OneShot,
         Select, Owners, KeptFor, DecidedIn, InTurn, DrawnInTurn;
    var st := Run(env, FRESH, evs);
    DrainedGrouping(env, W, evs, p);
    ts, ds := TimesFor(st.log, p), DrawsFor(st.log, p);
    LogDecided(env, evs);
    KeptForIs(env.settings, st.log, p);
    RunDrawn(env, evs);
    FileInTurn(env.settings, st.log, st.drawn, p);
    var all := RunInOrder(env, evs);
    ks := FileInOrder(evs, st.log, all, p);
    KeptForSelects(st.log, p);
    AllPublished(env, evs);
  }

  lemma LogDecided(env: Env, evs: seq<Event>)
    ensures forall x | x in Run(env, FRESH, evs).log :: DecidedBy(env.settings, x) && TimeIn(evs, x.now)
  {
    hide Run, DecidedBy, TimeIn;
    RunDecided(env, evs);
  }

  /** Without crashes and drops, and with nothing in memory, the published records are the kept ones. */
  lemma AllPublished(env: Env, evs: seq<Event>)
    requires CrashFree(evs)
    ensures var st := Run(env, FRESH, evs);
            st.dropped == [] && Unsaved(st) == [] ==> Records(st.disk.published) == Kept(st.log)
  {
    hide Run, Records, Kept, Unsaved;
    EachRecordOnce(env, evs);
    NothingCrashed(env, evs);
    var st := Run(env, FRESH, evs);
    assert Records(st.disk.published) + [] == Records(st.disk.published);
  }

  /** One pass at other times, with another clock and other draws, keeps the same entries, as
      records that differ in time only. */
  lemma {:induction false} OneShotAlike(s1: Settings, s2: Settings, entries: seq<FileLine>, ts1: seq<int>, ds1: seq<nat>,
                                        ts2: seq<int>, ds2: seq<nat>)
    requires SameRules(s1, s2) && TimeFree(s1) && Certain(s1)
    requires |entries| == |ts1| == |ds1| == |ts2| == |ds2|
    ensures AlikeRecords(OneShot(s1, entries, ts1, ds1), OneShot(s2, entries, ts2, ds2))
    decreases |entries|
  {
    hide Decide, SameRules, TimeFree, Certain, Alike, KeptBy;
    if entries != [] {
      var n := |entries| - 1;
      hide AlikeRecords;
      OneShotAlike(s1, s2, entries[..n], ts1[..n], ds1[..n], ts2[..n], ds2[..n]);
      DecideAlike(s1, s2, entries[n], ts1[n], ts2[n], ds1[n], ds2[n]);
      AlikeKept(OneShot(s1, entries[..n], ts1[..n], ds1[..n]), OneShot(s2, entries[..n], ts2[..n], ds2[..n]),
                Decide(s1, entries[n], ts1[n], ds1[n]).0, Decide(s2, entries[n], ts2[n], ds2[n]).0);
    }
  }

  lemma AlikeKept(left: seq<Log>, right: seq<Log>, a: Decision, b: Decision)
    requires AlikeRecords(left, right) && Alike(a, b)
    ensures AlikeRecords(left + KeptBy(a), right + KeptBy(b))
  {
    if a == b && a.Keep? { assert SameButTime(a.record, b.record); }
    hide SameButTime;
  }

  ghost predicate AlikeRecords(a: seq<Log>, b: seq<Log>) {
    |a| == |b| && forall i | 0 <= i < |a| :: SameButTime(a[i], b[i])
  }

  /** The schedule does not matter: two runs over the same file under the same rules, with a
      parser that does not look at the time and no level sampled by chance, keep records of the
      same entries of it, in the same order and differing in time only, however polls, clocks,
      draws, batch sizes and failures differ. */
  lemma ScheduleDoesNotMatter(env1: Env, env2: Env, W: World, evs1: seq<Event>, evs2: seq<Event>, p: string)
    requires ValidEnv(env1) && AppendOnlyRun(env1, FRESH, W, evs1) && CrashFree(evs1)
    requires ValidEnv(env2) && AppendOnlyRun(env2, FRESH, W, evs2) && CrashFree(evs2)
    requires SameRules(env1.settings, env2.settings) && TimeFree(env1.settings) && Certain(env1.settings)
    requires ReleasedWhole(W, Run(env1, FRESH, evs1).released) && Drained(Run(env1, FRESH, evs1), W(p), p)
    requires ReleasedWhole(W, Run(env2, FRESH, evs2).released) && Drained(Run(env2, FRESH, evs2), W(p), p)
    ensures LogFor(Run(env1, FRESH, evs1).log, p) == LogFor(Run(env2, FRESH, evs2).log, p)
    ensures AlikeRecords(KeptFor(Run(env1, FRESH, evs1).log, p), KeptFor(Run(env2, FRESH, evs2).log, p))
  {
    hide Run, AppendOnlyRun, CrashFree, Drained, ReleasedWhole, SameRules, TimeFree, Certain, AlikeRecords, OneShot, LogFor, KeptFor,
         DecidedIn, InTurn, Records, Select, Owners;
    DrainedGrouping(env1, W, evs1, p);
    DrainedGrouping(env2, W, evs2, p);
    var ts1, ds1, ks1 := PipelineRefinesOneShot(env1, W, evs1, p);
    var ts2, ds2, ks2 := PipelineRefinesOneShot(env2, W, evs2, p);
    OneShotAlike(env1.settings, env2.settings, Entries(Lines(p, W(p), 0)), ts1, ds1, ts2, ds2);
  }

  // ---------------------------------------------------------------- such runs exist

  const LINE := FileLine("f", "a", 2)

  function OneLine(path: string): string {
    "a\n"
  }

  function SeeLine(path: string): Observation {
    Opened(2, true, "a\n", true)
  }

  function PlainEnv(): Env {
    Env(["f"], 1, 1, KeepAll(), 0, (n: nat) => WriteDone(Names.Clock(2024, 1, 1, 0, 0, 0, 0), [], 0, {}), (n: nat) => true)
  }

  const PLAIN_RUN := [Polled(1, SeeLine), ShutDown(2)]

  lemma ReadLine()
    ensures ReadNew(FRESH.tailer, ["f"], SeeLine) == Reading(TailerState(map[], map["f" := 2]), [LINE], [], false)
    ensures Lines("f", "a\n", 0) == [LINE] && Lines("f", "a\n", 2) == [] && Stop("a\n", 0) == 2
  {
    var v := "a\n";
    assert LineEnd(v, 0) == 2 && LineEnd(v, 2) == 0 && v[0..2] == "a\n" && LineText("a\n") == "a";
    assert Lines("f", v, 2) == [];
    assert [] + [LINE] == [LINE] && ["f"][1..] == [];
    var r0 := Reading(FRESH.tailer, [], [], false);
    assert ReadAll(r0, ["f"], SeeLine) == ReadAll(ReadOne(r0, "f", SeeLine("f")), [], SeeLine);
  }

  lemma PlainPoll() returns (st: AgentState)
    ensures st == Poll(PlainEnv(), FRESH, SeeLine, 1).st
    ensures st == Holding(FRESH.(tailer := TailerState(map[], map["f" := 2])), LINE, 1)
  {
    hide ReadNew, AddLine, Decide;
    ReadLine();
    var env := PlainEnv();
    var g0 := Progress(FRESH.(tailer := TailerState(map[], map["f" := 2])), [], false);
    assert !IsContinuation(LINE.text);
    HeldBack(env, g0, LINE, 1);
    st := Holding(g0.st, LINE, 1);
    var g := g0.(st := st);
    assert Resets(env, g0, [], 1) == g0;
    assert [LINE][1..] == [] && FeedLines(env, g0, [LINE], 1) == FeedLines(env, AddLine(env, g0, LINE, 1), [], 1) == g;
    assert IdleFor(env) == 1 && st.stacks.updatedAt == map["f" := 1];
    CutFiles.StillHeld(env, g, 1);
  }

  lemma PlainShutDown(st: AgentState)
    requires st == Holding(FRESH.(tailer := TailerState(map[], map["f" := 2])), LINE, 1)
    ensures var s := Agents.Flush(PlainEnv(), st, 2).st;
            && s.released == [LINE] && s.stacks.pending == map[] && s.batchOffsets == map[] && s.batch == []
            && s.tailer.offsets == map["f" := 2] && (exists x: Entry :: x.line == LINE && s.log == [x])
  {
    hide Decide, ProcessLine;
    var env := PlainEnv();
    KeepAllKeeps();
    var st1 := st.(stacks := Stacks.Flush(st.stacks, "f").0, released := [] + [LINE]);
    assert st.stacks.pending == map["f" := LINE] && st1.stacks.pending == map[];
    assert Unsaved(st1) == [] && map[]["f" := 2] == map["f" := 2];
    WrittenAndCommitted(env, st1, LINE, 2);
    assert Candidate(st1.tailer, map["f" := 2]) == map["f" := 2];
    var g := FlushOne(env, Progress(st, [], false), "f", 2);
    assert g.st == ProcessLine(env, st1, LINE, 2).st;
    assert ["f"][1..] == [];
    assert FlushOpen(env, Progress(st, [], false), ["f"], 2) == FlushOpen(env, g, [], 2) == g;
    assert FlushBatch(env, g.st).st == g.st;
  }

  lemma PlainRun() returns (st: AgentState)
    ensures st == Run(PlainEnv(), FRESH, PLAIN_RUN) && AppendOnlyRun(PlainEnv(), FRESH, OneLine, PLAIN_RUN)
    ensures st.released == [LINE] && st.stacks.pending == map[] && st.batchOffsets == map[] && st.batch == []
    ensures st.tailer.offsets == map["f" := 2] && exists x: Entry :: x.line == LINE && st.log == [x]
  {
    hide Poll, Agents.Flush;
    var env, evs := PlainEnv(), PLAIN_RUN;
    var st1 := PlainPoll();
    PlainShutDown(st1);
    assert evs[..1] == [Polled(1, SeeLine)] && evs[..1][..0] == [];
    assert Run(env, FRESH, evs[..1]) == st1;
    st := Run(env, FRESH, evs);
    assert AppendOnlyRun(env, FRESH, OneLine, []) && AppendOnly(FRESH, OneLine, env.files, SeeLine);
    assert AppendOnlyRun(env, FRESH, OneLine, evs[..1]);
  }

  lemma OneKept(x: Entry)
    requires x.line == LINE && DecidedBy(KeepAll(), x)
    ensures KeptFor([x], "f") != [] && Kept([x]) != []
  {
    hide Decide;
    KeepAllKeeps();
    assert [x][..0] == [] && Kept([]) == [] && KeptFor([], "f") == [];
    assert KeptFor([x], "f") == [] + [x.decision.record] && Kept([x]) == [] + [x.decision.record];
  }

  lemma CommittedIsDone(env: Env, W: World, evs: seq<Event>, p: string)
    requires ValidEnv(env) && AppendOnlyRun(env, FRESH, W, evs) && p !in Run(env, FRESH, evs).batchOffsets
    ensures Done(Run(env, FRESH, evs), p) == Get(Run(env, FRESH, evs).tailer.offsets, p)
  {
    hide Run, AppendOnlyRun, At;
    RunSound(env, W, evs);
    var st := Run(env, FRESH, evs);
    assert PathSound(st, W(p), p, Done(st, p), ForPath([], p));
  }

  /** The hypotheses of the two theorems above can be met by a run that keeps and publishes a
      record. */
  lemma AKeepingRunExists()
    ensures var env, st := PlainEnv(), Run(PlainEnv(), FRESH, PLAIN_RUN);
            && ValidEnv(env) && AppendOnlyRun(env, FRESH, OneLine, PLAIN_RUN) && CrashFree(PLAIN_RUN)
            && TimeFree(env.settings) && Certain(env.settings)
            && ReleasedWhole(OneLine, st.released) && Drained(st, OneLine("f"), "f")
            && st.dropped == [] && Unsaved(st) == [] && KeptFor(st.log, "f") != [] && Records(st.disk.published) != []
  {
    hide Decide, Run, AppendOnlyRun, Records, KeptFor, Kept, KeepAll, DecidedBy;
    var env := PlainEnv();
    KeepAllKeeps();
    ReadLine();
    var st := PlainRun();
    CommittedIsDone(env, OneLine, PLAIN_RUN, "f");
    SavesLoseNothing(env, OneLine, PLAIN_RUN);
    LogDecided(env, PLAIN_RUN);
    var x: Entry :| x.line == LINE && st.log == [x];
    assert x in st.log;
    OneKept(x);
    AllPublished(env, PLAIN_RUN);
  }
}
