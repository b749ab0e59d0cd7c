/**
 When a record is dropped. A flush drops what came in while a batch file was
 waiting for its commit, when the commit goes through; over whole runs, this is
 the only way, and every such flush does.
 */
module AgentDrops {
  import opened Tailing
  import Stacks
  import Names
  import opened Schema
  import opened BatchStores
  import opened Processing
  import opened Agents
  import opened AgentSafety
  import opened AgentSteps
  import opened AgentRuns
  import opened AgentBooks
  import opened AgentRestart

  /** A flush beginning at `st` finds a batch file waiting and records that are in none, and its
      commit goes through. */
  predicate Drops(env: Env, st: AgentState) {
    && st.pendingBatch != "" && Unsaved(st) != []
    && CommitAllowed(st.tailer, st.batchOffsets) && env.saveOk(st.saves)
  }

  /** What the flushes beginning at these states drop. */
  function DroppedAt(env: Env, flushes: seq<AgentState>): seq<Log> {
    if flushes == [] then []
    else (if Drops(env, flushes[0]) then Unsaved(flushes[0]) else []) + DroppedAt(env, flushes[1..])
  }

  // ---------------------------------------------------------------- where the flushes of an event begin

  function ProcessFlushes(env: Env, g: Progress, line: FileLine, now: int): seq<AgentState> {
    var s := Record(env, g.st, line, now);
    if s.batch == g.st.batch || |s.batch| < env.batchSize then [] else [s]
  }

  function AllFlushes(env: Env, g: Progress, lines: seq<FileLine>, now: int): seq<AgentState>
    decreases |lines|
  {
    if lines == [] then []
    else ProcessFlushes(env, g, lines[0], now) + AllFlushes(env, Process(env, g, lines[0], now), lines[1..], now)
  }

  function FeedFlushes(env: Env, g: Progress, lines: seq<FileLine>, now: int): seq<AgentState>
    decreases |lines|
  {
    if lines == [] then []
    else
      var (stacks, completed) := Stacks.Add(g.st.stacks, lines[0], now);
      AllFlushes(env, g.(st := g.st.(stacks := stacks)), completed, now)
      + FeedFlushes(env, AddLine(env, g, lines[0], now), lines[1..], now)
  }

  function ResetFlushes(env: Env, g: Progress, path: string, now: int): seq<AgentState> {
    var (stacks, pending) := Stacks.Flush(g.st.stacks, path);
    var st := g.st.(batchOffsets := g.st.batchOffsets[path := 0], stacks := stacks);
    if pending.Some? then ProcessFlushes(env, g.(st := st), pending.value.(endOffset := 0), now) else []
  }

  function ResetsFlushes(env: Env, g: Progress, paths: seq<string>, now: int): seq<AgentState>
    decreases |paths|
  {
    if paths == [] then []
    else ResetFlushes(env, g, paths[0], now) + ResetsFlushes(env, ResetOne(env, g, paths[0], now), paths[1..], now)
  }

  function ReleaseFlushes(env: Env, g: Progress, taken: (Stacks.StackState, Option<FileLine>), now: int): seq<AgentState> {
    if taken.1.None? then []
    else ProcessFlushes(env, g.(st := g.st.(stacks := taken.0, released := g.st.released + [taken.1.value])), taken.1.value, now)
  }

  function IdlesFlushes(env: Env, g: Progress, files: seq<string>, now: int): seq<AgentState>
    decreases |files|
  {
    if files == [] then []
    else
      ReleaseFlushes(env, g, Stacks.FlushIdle(g.st.stacks, files[0], now, IdleFor(env)), now)
      + IdlesFlushes(env, IdleOne(env, g, files[0], now), files[1..], now)
  }

  function OpenFlushes(env: Env, g: Progress, files: seq<string>, now: int): seq<AgentState>
    decreases |files|
  {
    if files == [] || g.failed then []
    else
      ReleaseFlushes(env, g, Stacks.Flush(g.st.stacks, files[0]), now)
      + OpenFlushes(env, FlushOne(env, g, files[0], now), files[1..], now)
  }

  /** The states at which the flushes of a poll begin, in order. */
  function PollFlushes(env: Env, st: AgentState, obs: string -> Observation, now: int): seq<AgentState> {
    var r := ReadNew(st.tailer, env.files, obs);
    var g := Progress(st.(tailer := r.tailer), [], r.failed);
    var g1 := Resets(env, g, r.resets, now);
    var g2 := FeedLines(env, g1, r.lines, now);
    ResetsFlushes(env, g, r.resets, now) + FeedFlushes(env, g1, r.lines, now) + IdlesFlushes(env, g2, env.files, now)
  }

  /** The states at which the flushes of an event begin, in order. */
  function Flushes(env: Env, st: AgentState, ev: Event): seq<AgentState> {
    match ev
    case Polled(now, obs) => PollFlushes(env, st, obs, now)
    case Flushed => [st]
    case ShutDown(now) =>
      var g := FlushOpen(env, Progress(st, [], false), env.files, now);
      OpenFlushes(env, Progress(st, [], false), env.files, now) + (if g.failed then [] else [g.st])
    case _ => []
  }

  // ---------------------------------------------------------------- what they drop

  lemma {:induction false} DroppedMore(env: Env, a: seq<AgentState>, b: seq<AgentState>)
    ensures DroppedAt(env, a + b) == DroppedAt(env, a) + DroppedAt(env, b)
  {
    hide Drops, Unsaved;
    if a == [] {
      assert a + b == b;
    } else {
      assert (a + b)[0] == a[0] && (a + b)[1..] == a[1..] + b;
      DroppedMore(env, a[1..], b);
      var head := if Drops(env, a[0]) then Unsaved(a[0]) else [];
      assert head + (DroppedAt(env, a[1..]) + DroppedAt(env, b)) == (head + DroppedAt(env, a[1..])) + DroppedAt(env, b);
    }
  }

  /** From `a` to `b` exactly what these flushes drop has been dropped. */
  predicate DroppedBy(env: Env, a: AgentState, b: AgentState, flushes: seq<AgentState>) {
    b.dropped == a.dropped + DroppedAt(env, flushes)
  }

  lemma DroppedNone(env: Env, a: AgentState, b: AgentState)
    requires b.dropped == a.dropped
    ensures DroppedBy(env, a, b, [])
  {
  }

  lemma DroppedOne(env: Env, st: AgentState)
    requires Books(st)
    ensures DroppedBy(env, st, FlushBatch(env, st).st, [st])
  {
    hide FlushBatch, Unsaved, CommitAllowed, Balanced, TrailBalanced, LateKnown, DroppedAt;
    FlushDrops(env, st);
    DroppedAtOne(env, st);
  }

  lemma DroppedAtOne(env: Env, st: AgentState)
    ensures DroppedAt(env, [st]) == if Drops(env, st) then Unsaved(st) else []
  {
    hide Drops, Unsaved;
    assert [st][1..] == [] && DroppedAt(env, []) == [];
    assert DroppedAt(env, [st]) == (if Drops(env, st) then Unsaved(st) else []) + DroppedAt(env, []);
  }

  lemma DroppedTwice(env: Env, a: AgentState, b: AgentState, c: AgentState, fs: seq<AgentState>, gs: seq<AgentState>)
    requires DroppedBy(env, a, b, fs) && DroppedBy(env, b, c, gs)
    ensures DroppedBy(env, a, c, fs + gs)
  {
    DroppedMore(env, fs, gs);
    hide DroppedAt;
  }

  lemma ProcessDrops(env: Env, g: Progress, line: FileLine, now: int)
    requires Books(g.st)
    ensures DroppedBy(env, g.st, Process(env, g, line, now).st, ProcessFlushes(env, g, line, now))
    ensures Books(Process(env, g, line, now).st)
  {
    hide Books, Closed, Record, FlushBatch, DroppedBy, Decide;
    BooksClosed(env, now);
    ProcessKeeps(env, now, Books, g, line);
    TakeBooks(env, g.st, line, now);
    RecordFrame(env, g.st, line, now);
    var s := Record(env, g.st, line, now);
    DroppedOne(env, s);
    if s.batch == g.st.batch || |s.batch| < env.batchSize {
      DroppedNone(env, g.st, s);
    } else {
      DroppedNone(env, g.st, s);
      DroppedTwice(env, g.st, s, FlushBatch(env, s).st, [], [s]);
      assert [] + [s] == [s];
    }
  }

  lemma {:induction false} AllDrops(env: Env, g: Progress, lines: seq<FileLine>, now: int)
    requires Books(g.st)
    ensures DroppedBy(env, g.st, ProcessAll(env, g, lines, now).st, AllFlushes(env, g, lines, now))
    ensures Books(ProcessAll(env, g, lines, now).st)
    decreases |lines|
  {
    hide Books, Process, ProcessFlushes, DroppedBy;
    if lines == [] {
      DroppedNone(env, g.st, g.st);
    } else {
      var g1 := Process(env, g, lines[0], now);
      ProcessDrops(env, g, lines[0], now);
      AllDrops(env, g1, lines[1..], now);
      DroppedTwice(env, g.st, g1.st, ProcessAll(env, g1, lines[1..], now).st,
                   ProcessFlushes(env, g, lines[0], now), AllFlushes(env, g1, lines[1..], now));
    }
  }

  /** Only the assembler, the released entries, the read positions or the safe offsets change. */
  lemma SetAside(env: Env, a: AgentState, b: AgentState, flushes: seq<AgentState>, c: AgentState)
    requires DroppedBy(env, b, c, flushes) && b.dropped == a.dropped
    ensures DroppedBy(env, a, c, flushes)
  {
  }

  lemma {:induction false} FeedDrops(env: Env, g: Progress, lines: seq<FileLine>, now: int)
    requires Books(g.st)
    ensures DroppedBy(env, g.st, FeedLines(env, g, lines, now).st, FeedFlushes(env, g, lines, now))
    ensures Books(FeedLines(env, g, lines, now).st)
    decreases |lines|
  {
    hide Books, ProcessAll, AllFlushes, DroppedBy, Stacks.Add;
    if lines == [] {
      DroppedNone(env, g.st, g.st);
    } else {
      var (stacks, completed) := Stacks.Add(g.st.stacks, lines[0], now);
      var g0 := g.(st := g.st.(stacks := stacks));
      var g1 := AddLine(env, g, lines[0], now);
      SameBooks(g.st, g0.st);
      AllDrops(env, g0, completed, now);
      SetAside(env, g.st, g0.st, AllFlushes(env, g0, completed, now), g1.st);
      FeedDrops(env, g1, lines[1..], now);
      DroppedTwice(env, g.st, g1.st, FeedLines(env, g1, lines[1..], now).st,
                   AllFlushes(env, g0, completed, now), FeedFlushes(env, g1, lines[1..], now));
    }
  }

  lemma ResetDrops(env: Env, g: Progress, path: string, now: int)
    requires Books(g.st)
    ensures DroppedBy(env, g.st, ResetOne(env, g, path, now).st, ResetFlushes(env, g, path, now))
    ensures Books(ResetOne(env, g, path, now).st)
  {
    hide Books, Process, ProcessFlushes, DroppedBy, Stacks.Flush;
    var (stacks, pending) := Stacks.Flush(g.st.stacks, path);
    var g0 := g.(st := g.st.(batchOffsets := g.st.batchOffsets[path := 0], stacks := stacks));
    assert path in g0.st.batchOffsets;
    SameBooks(g.st, g0.st);
    if pending.Some? {
      ProcessDrops(env, g0, pending.value.(endOffset := 0), now);
      SetAside(env, g.st, g0.st, ResetFlushes(env, g, path, now), ResetOne(env, g, path, now).st);
    } else {
      DroppedNone(env, g.st, g0.st);
    }
  }

  lemma {:induction false} ResetsDrops(env: Env, g: Progress, paths: seq<string>, now: int)
    requires Books(g.st)
    ensures DroppedBy(env, g.st, Resets(env, g, paths, now).st, ResetsFlushes(env, g, paths, now))
    ensures Books(Resets(env, g, paths, now).st)
    decreases |paths|
  {
    hide Books, ResetOne, ResetFlushes, DroppedBy;
    if paths == [] {
      DroppedNone(env, g.st, g.st);
    } else {
      var g1 := ResetOne(env, g, paths[0], now);
      ResetDrops(env, g, paths[0], now);
      ResetsDrops(env, g1, paths[1..], now);
      DroppedTwice(env, g.st, g1.st, Resets(env, g1, paths[1..], now).st,
                   ResetFlushes(env, g, paths[0], now), ResetsFlushes(env, g1, paths[1..], now));
    }
  }

  /** An entry taken off the assembler is processed. */
  lemma ReleaseDrops(env: Env, g: Progress, taken: (Stacks.StackState, Option<FileLine>), now: int) returns (to: AgentState)
    requires Books(g.st)
    ensures to == if taken.1.None? then g.st.(stacks := taken.0)
                  else Process(env, g.(st := g.st.(stacks := taken.0, released := g.st.released + [taken.1.value])), taken.1.value, now).st
    ensures DroppedBy(env, g.st, to, ReleaseFlushes(env, g, taken, now)) && Books(to)
  {
    hide Books, Process, ProcessFlushes, DroppedBy;
    SameBooks(g.st, g.st.(stacks := taken.0));
    to := g.st.(stacks := taken.0);
    if taken.1.None? {
      DroppedNone(env, g.st, to);
    } else {
      var g0 := g.(st := g.st.(stacks := taken.0, released := g.st.released + [taken.1.value]));
      SameBooks(g.st, g0.st);
      ProcessDrops(env, g0, taken.1.value, now);
      to := Process(env, g0, taken.1.value, now).st;
      SetAside(env, g.st, g0.st, ReleaseFlushes(env, g, taken, now), to);
    }
  }

  lemma {:induction false} IdlesDrops(env: Env, g: Progress, files: seq<string>, now: int)
    requires Books(g.st)
    ensures DroppedBy(env, g.st, Idles(env, g, files, now).st, IdlesFlushes(env, g, files, now))
    ensures Books(Idles(env, g, files, now).st)
    decreases |files|
  {
    hide Books, Process, ReleaseFlushes, DroppedBy, Stacks.FlushIdle;
    if files == [] {
      DroppedNone(env, g.st, g.st);
    } else {
      var taken := Stacks.FlushIdle(g.st.stacks, files[0], now, IdleFor(env));
      var to := ReleaseDrops(env, g, taken, now);
      var g1 := IdleOne(env, g, files[0], now);
      IdlesDrops(env, g1, files[1..], now);
      DroppedTwice(env, g.st, g1.st, Idles(env, g1, files[1..], now).st,
                   ReleaseFlushes(env, g, taken, now), IdlesFlushes(env, g1, files[1..], now));
    }
  }

  lemma {:induction false} OpenDrops(env: Env, g: Progress, files: seq<string>, now: int)
    requires Books(g.st)
    ensures DroppedBy(env, g.st, FlushOpen(env, g, files, now).st, OpenFlushes(env, g, files, now))
    ensures Books(FlushOpen(env, g, files, now).st)
    decreases |files|
  {
    hide Books, Process, ReleaseFlushes, DroppedBy, Stacks.Flush;
    if files == [] || g.failed {
      DroppedNone(env, g.st, g.st);
    } else {
      var taken := Stacks.Flush(g.st.stacks, files[0]);
      var to := ReleaseDrops(env, g, taken, now);
      var g1 := FlushOne(env, g, files[0], now);
      OpenDrops(env, g1, files[1..], now);
      DroppedTwice(env, g.st, g1.st, FlushOpen(env, g1, files[1..], now).st,
                   ReleaseFlushes(env, g, taken, now), OpenFlushes(env, g1, files[1..], now));
    }
  }

  /** The commit that ends a poll has nothing to drop. */
  lemma FinishDrops(env: Env, g: Progress)
    requires Books(g.st)
    ensures Finish(env, g).st.dropped == g.st.dropped
  {
    hide Balanced, TrailBalanced, LateKnown, CommitAllowed, Candidate;
    if g.st.batch == [] { assert Unsaved(g.st) == [] && g.st.dropped + [] == g.st.dropped; }
  }

  lemma PollDrops(env: Env, st: AgentState, obs: string -> Observation, now: int)
    requires Books(st)
    ensures DroppedBy(env, st, Poll(env, st, obs, now).st, PollFlushes(env, st, obs, now))
  {
    hide Books, Resets, FeedLines, Idles, Finish, ResetsFlushes, FeedFlushes, IdlesFlushes, ReadNew, DroppedBy;
    var r := ReadNew(st.tailer, env.files, obs);
    var g := Progress(st.(tailer := r.tailer), [], r.failed);
    SameBooks(st, g.st);
    ResetsDrops(env, g, r.resets, now);
    var g1 := Resets(env, g, r.resets, now);
    FeedDrops(env, g1, r.lines, now);
    var g2 := FeedLines(env, g1, r.lines, now);
    IdlesDrops(env, g2, env.files, now);
    var g3 := Idles(env, g2, env.files, now);
    FinishDrops(env, g3);
    var fs, gs, hs := ResetsFlushes(env, g, r.resets, now), FeedFlushes(env, g1, r.lines, now), IdlesFlushes(env, g2, env.files, now);
    SetAside(env, st, g.st, fs, g1.st);
    DroppedTwice(env, st, g1.st, g2.st, fs, gs);
    DroppedTwice(env, st, g2.st, g3.st, fs + gs, hs);
    DroppedNone(env, g3.st, Finish(env, g3).st);
    DroppedTwice(env, st, g3.st, Finish(env, g3).st, fs + gs + hs, []);
    assert fs + gs + hs + [] == fs + gs + hs;
  }

  /** Every event but a crash drops exactly what its flushes drop. */
  lemma EventDrops(env: Env, st: AgentState, ev: Event)
    requires Books(st) && !ev.Crashed?
    ensures Next(env, st, ev).dropped == st.dropped + DroppedAt(env, Flushes(env, st, ev))
  {
    hide Books, Poll, FlushBatch, FlushOpen, OpenFlushes, PollFlushes, Apply, DroppedAt;
    match ev
    case Polled(now, obs) => PollDrops(env, st, obs, now);
    case Flushed => DroppedOne(env, st);
    case ShutDown(now) =>
      var g0 := Progress(st, [], false);
      var g := FlushOpen(env, g0, env.files, now);
      OpenDrops(env, g0, env.files, now);
      if g.failed {
        assert OpenFlushes(env, g0, env.files, now) + [] == OpenFlushes(env, g0, env.files, now);
      } else {
        DroppedOne(env, g.st);
        DroppedTwice(env, st, g.st, FlushBatch(env, g.st).st, OpenFlushes(env, g0, env.files, now), [g.st]);
      }
    case Drained => DroppedNone(env, st, Drain(st));
    case SenderActs(op) => DroppedNone(env, st, Next(env, st, ev));
  }

  // ---------------------------------------------------------------- whole runs

  lemma {:induction false} SomeDrops(env: Env, flushes: seq<AgentState>)
    ensures DroppedAt(env, flushes) != [] <==> exists s :: s in flushes && Drops(env, s)
  {
    hide Unsaved, CommitAllowed;
    if flushes != [] {
      SomeDrops(env, flushes[1..]);
      assert flushes == [flushes[0]] + flushes[1..];
    }
  }

  predicate Spared(st: AgentState) {
    TrailSpared(st.trail, st.dropped)
  }

  lemma SaveSpared(env: Env, st: AgentState)
    requires Spared(st)
    ensures Spared(Commit(env, st).0)
  {
    hide CommitAllowed, Candidate, Unsaved;
  }

  lemma PutSpared(env: Env, st: AgentState)
    requires Spared(st)
    ensures Spared(WritePending(env, st).0)
  {
    hide Publish, Names.NewBatchName, Unsaved;
  }

  lemma SparedClosed(env: Env, now: int)
    ensures Closed(env, now, Spared)
  {
    forall st, m | Spared(st) && Enabled(st, m) ensures Spared(Do(env, now, st, m)) {
      match m
      case Take(line) => RecordFrame(env, st, line, now); hide Record, Decide;
      case Save => SaveSpared(env, st); hide Commit;
      case Put => PutSpared(env, st); hide WritePending;
      case Clear =>
      case Shift(_, _, _, _) =>
    }
  }

  lemma {:induction false} RunSpared(env: Env, evs: seq<Event>)
    ensures Spared(Run(env, FRESH, evs))
  {
    hide Next;
    if evs != [] {
      hide Spared;
      RunSpared(env, evs[..|evs| - 1]);
      NextSpared(env, Run(env, FRESH, evs[..|evs| - 1]), evs[|evs| - 1]);
    }
  }

  lemma NextSpared(env: Env, st: AgentState, ev: Event)
    requires Spared(st)
    ensures Spared(Next(env, st, ev))
  {
    hide Closed, Poll, FlushBatch, Agents.Flush, Apply, RecoverClaims, Unsaved;
    if ev.Polled? || ev.Flushed? || ev.ShutDown? {
      SparedClosed(env, TimeOf(ev));
      EventKeeps(env, Spared, st, ev);
    } else if ev.Crashed? && ev.at < |st.trail| {
      assert st.trail[ev.at] in st.trail;
    }
  }

  /** A flush of event `j` begins at `s`, with a batch file waiting and records that are in none,
      and its commit goes through. */
  predicate LateAt(env: Env, evs: seq<Event>, j: nat, s: AgentState) {
    j < |evs| && s in Flushes(env, Run(env, FRESH, evs[..j]), evs[j]) && Drops(env, s)
  }

  ghost predicate LateFlush(env: Env, evs: seq<Event>) {
    exists j: nat, s :: LateAt(env, evs, j, s)
  }

  /** Something is dropped after the first `i` events. */
  predicate DroppedAfter(env: Env, evs: seq<Event>, i: nat) {
    i <= |evs| && Run(env, FRESH, evs[..i]).dropped != []
  }

  ghost predicate EverDropped(env: Env, evs: seq<Event>) {
    exists i: nat :: DroppedAfter(env, evs, i)
  }

  /** Over every run, whatever the files do and whatever fails, crashes included: a record is
      dropped if and only if some flush of the run finds a batch file waiting and records that are
      in none, and its commit goes through. */
  lemma {:induction false} DropsExactly(env: Env, evs: seq<Event>)
    ensures EverDropped(env, evs) <==> LateFlush(env, evs)
  {
    if evs == [] {
      NothingYet(env);
    } else {
      var n := |evs| - 1;
      var st, ev := Run(env, FRESH, evs[..n]), evs[n];
      hide EverDropped, LateFlush, Books, Spared, Next, Flushes, Drops;
      DropsExactly(env, evs[..n]);
      NeverYet(env, evs[..n]);
      RunBooks(env, evs[..n]);
      RunSpared(env, evs[..n]);
      LastDrops(env, st, ev);
      DroppedBefore(env, evs);
      FlushBefore(env, evs);
    }
  }

  /** The last event, as far as nothing was dropped before. */
  lemma LastDrops(env: Env, st: AgentState, ev: Event)
    requires Books(st) && Spared(st)
    ensures st.dropped == [] ==>
              (Next(env, st, ev).dropped != [] <==> exists s :: s in Flushes(env, st, ev) && Drops(env, s))
    ensures (exists s :: s in Flushes(env, st, ev) && Drops(env, s)) ==> Next(env, st, ev).dropped != []
  {
    hide Books, Poll, FlushBatch, Agents.Flush, FlushOpen, OpenFlushes, PollFlushes, Apply, RecoverClaims, Drops;
    SomeDrops(env, Flushes(env, st, ev));
    if ev.Crashed? {
      if ev.at < |st.trail| { assert st.trail[ev.at] in st.trail; }
    } else {
      EventDrops(env, st, ev);
      hide Next;
    }
  }

  lemma NothingYet(env: Env)
    ensures !EverDropped(env, []) && !LateFlush(env, [])
  {
    forall i: nat ensures !DroppedAfter(env, [], i) {
      if i == 0 { assert Run(env, FRESH, [][..0]) == FRESH; }
    }
  }

  lemma NeverYet(env: Env, evs: seq<Event>)
    ensures !EverDropped(env, evs) ==> !DroppedAfter(env, evs, |evs|) && Run(env, FRESH, evs).dropped == []
  {
    hide Run;
    assert evs[..|evs|] == evs;
  }

  lemma SameAfter(env: Env, evs: seq<Event>, i: nat)
    requires i < |evs|
    ensures DroppedAfter(env, evs, i) <==> DroppedAfter(env, evs[..|evs| - 1], i)
  {
    hide Run;
    assert evs[..|evs| - 1][..i] == evs[..i];
  }

  lemma DroppedBefore(env: Env, evs: seq<Event>)
    requires evs != []
    ensures EverDropped(env, evs) <==> EverDropped(env, evs[..|evs| - 1]) || Run(env, FRESH, evs).dropped != []
  {
    assert DroppedAfter(env, evs, |evs|) <==> Run(env, FRESH, evs).dropped != [] by { hide Run; assert evs[..|evs|] == evs; }
    var before := evs[..|evs| - 1];
    if i: nat :| DroppedAfter(env, evs, i) {
      if i < |evs| { SameAfter(env, evs, i); }
    }
    if i: nat :| DroppedAfter(env, before, i) { SameAfter(env, evs, i); }
    hide DroppedAfter, Run;
  }

  lemma SameLate(env: Env, evs: seq<Event>, j: nat, s: AgentState)
    requires j + 1 < |evs|
    ensures LateAt(env, evs, j, s) <==> LateAt(env, evs[..|evs| - 1], j, s)
  {
    hide Run, Flushes, Drops;
    assert evs[..|evs| - 1][..j] == evs[..j] && evs[..|evs| - 1][j] == evs[j];
  }

  lemma FlushBefore(env: Env, evs: seq<Event>)
    requires evs != []
    ensures var n := |evs| - 1;
            LateFlush(env, evs) <==>
              (LateFlush(env, evs[..n]) || exists s :: s in Flushes(env, Run(env, FRESH, evs[..n]), evs[n]) && Drops(env, s))
  {
    hide Run, Flushes, Drops;
    var n := |evs| - 1;
    if j: nat, s :| LateAt(env, evs, j, s) {
      if j < n { SameLate(env, evs, j, s); }
    }
    if j: nat, s :| LateAt(env, evs[..n], j, s) { SameLate(env, evs, j, s); }
    if s :| s in Flushes(env, Run(env, FRESH, evs[..n]), evs[n]) && Drops(env, s) { assert LateAt(env, evs, n, s); }
  }
}
