/**
 What the agent reports and when it writes: a poll or a shutdown returns the
 records that left memory, reports every failed read, write or commit and
 nothing else, and a poll writes full batches only.
 */
module AgentReports {
  import opened Tailing
  import opened Schema
  import opened Names
  import opened Eviction
  import opened BatchStores
  import opened Processing
  import Stacks
  import opened Agents

  /** The records of the entries that were kept. */
  function KeptOf(log: seq<Entry>): seq<Log> {
    if log == [] then []
    else
      var last := log[|log| - 1].decision;
      KeptOf(log[..|log| - 1]) + (if last.Keep? then [last.record] else [])
  }

  lemma {:induction false} KeptAppend(a: seq<Entry>, b: seq<Entry>)
    ensures KeptOf(a + b) == KeptOf(a) + KeptOf(b)
  {
    if b == [] {
      assert a + b == a;
    } else {
      assert (a + b)[..|a + b| - 1] == a + b[..|b| - 1];
      KeptAppend(a, b[..|b| - 1]);
    }
  }

  /** From `a` to `b` a write failed, or a commit was tried that was not carried out. */
  ghost predicate Trouble(env: Env, a: AgentState, b: AgentState) {
    || (exists n: nat :: a.writes <= n < b.writes && env.write(n).WriteFailed?)
    || b.saves - a.saves != |b.commits| - |a.commits|
  }

  predicate Ahead(a: AgentState, b: AgentState) {
    && a.writes <= b.writes && 0 <= |b.commits| - |a.commits| <= b.saves - a.saves
    && a.log <= b.log && a.disk.published <= b.disk.published
  }

  /** The records in memory and those kept since are, in order, those returned and those in memory now. */
  predicate Returns(a: AgentState, b: AgentState, logs: seq<Log>)
    requires a.log <= b.log
  {
    a.batch + KeptOf(b.log[|a.log|..]) == logs + b.batch
  }

  /** Every batch published since holds at least so many records. */
  predicate Filled(a: AgentState, b: AgentState, least: int) {
    forall i | |a.disk.published| <= i < |b.disk.published| :: |b.disk.published[i].batch.records| >= least
  }

  ghost predicate Reported(env: Env, least: int, g: Progress, h: Progress) {
    && Ahead(g.st, h.st) && g.logs <= h.logs && Returns(g.st, h.st, h.logs[|g.logs|..])
    && (h.failed <==> g.failed || Trouble(env, g.st, h.st))
    && Filled(g.st, h.st, least)
  }

  lemma TroubleTwice(env: Env, a: AgentState, b: AgentState, c: AgentState)
    requires Ahead(a, b) && Ahead(b, c)
    ensures Trouble(env, a, c) <==> Trouble(env, a, b) || Trouble(env, b, c)
  {
  }

  lemma ReturnsTwice(a: AgentState, b: AgentState, c: AgentState, x: seq<Log>, y: seq<Log>)
    requires a.log <= b.log <= c.log && Returns(a, b, x) && Returns(b, c, y)
    ensures Returns(a, c, x + y)
  {
    hide KeptOf;
    var p, q := b.log[|a.log|..], c.log[|b.log|..];
    RestSplit(a.log, b.log, c.log);
    KeptAppend(p, q);
    Chained(a.batch, KeptOf(p), KeptOf(q), x, y, b.batch, c.batch);
  }

  lemma RestSplit(a: seq<Entry>, b: seq<Entry>, c: seq<Entry>)
    requires a <= b <= c
    ensures c[|a|..] == b[|a|..] + c[|b|..]
  {
  }

  lemma Chained(a: seq<Log>, p: seq<Log>, q: seq<Log>, x: seq<Log>, y: seq<Log>, b: seq<Log>, c: seq<Log>)
    requires a + p == x + b && b + q == y + c
    ensures a + (p + q) == (x + y) + c
  {
    assert a + (p + q) == (a + p) + q;
    assert (x + b) + q == x + (b + q);
    assert x + (y + c) == (x + y) + c;
  }

  lemma ReportedTwice(env: Env, least: int, g: Progress, h: Progress, k: Progress)
    requires Reported(env, least, g, h) && Reported(env, least, h, k)
    ensures Reported(env, least, g, k)
  {
    hide Trouble, Returns;
    TroubleTwice(env, g.st, h.st, k.st);
    ReturnsTwice(g.st, h.st, k.st, h.logs[|g.logs|..], k.logs[|h.logs|..]);
    assert h.logs[|g.logs|..] + k.logs[|h.logs|..] == k.logs[|g.logs|..];
  }

  /** Between the two nothing happened that is reported. */
  predicate Quiet(a: AgentState, b: AgentState) {
    && b.writes == a.writes && b.saves == a.saves && b.commits == a.commits
    && b.log == a.log && b.disk == a.disk && b.batch == a.batch
  }

  lemma QuietReported(env: Env, least: int, g: Progress, h: Progress)
    requires Quiet(g.st, h.st) && h.logs == g.logs && h.failed == g.failed
    ensures Reported(env, least, g, h)
  {
    assert h.st.log[|g.st.log|..] == [] && h.logs[|g.logs|..] == [];
    assert g.st.batch + KeptOf([]) == [] + h.st.batch;
  }

  lemma CommitReports(env: Env, st: AgentState)
    ensures var (s, ok) := Commit(env, st);
            && s.writes == st.writes && s.log == st.log && s.disk == st.disk && s.batch == st.batch
            && s.pendingBatch == st.pendingBatch && s.released == st.released
            && 0 <= |s.commits| - |st.commits| <= s.saves - st.saves
            && (ok <==> s.saves - st.saves == |s.commits| - |st.commits|)
  {
    hide CommitAllowed, Candidate, Unsaved, Moved, Snapshot;
  }

  lemma PublishAdds(d: Disk, maxBytes: int, records: seq<Log>, io: WriteIO)
    ensures var e := Publish(d, maxBytes, records, io);
            e.published == d.published
            || (|e.published| == |d.published| + 1 && d.published <= e.published
                && e.published[|d.published|].batch.records == records)
  {
    hide VictimSet, NewBatchName, Chosen;
  }

  lemma WriteReports(env: Env, st: AgentState)
    ensures var (s, ok) := WritePending(env, st);
            && s.writes == st.writes + 1 && s.saves == st.saves && s.commits == st.commits
            && s.log == st.log && s.batch == st.batch && s.released == st.released && (ok <==> !env.write(st.writes).WriteFailed?)
            && st.disk.published <= s.disk.published
            && (forall i | |st.disk.published| <= i < |s.disk.published| :: s.disk.published[i].batch.records == st.batch)
  {
    hide Publish, NewBatchName, Moved, Snapshot;
    PublishAdds(st.disk, env.maxBytes, st.batch, env.write(st.writes));
  }

  /** A flush. */
  lemma FlushReports(env: Env, least: int, g: Progress)
    requires g.st.batch != [] ==> |g.st.batch| >= least
    ensures var r := FlushBatch(env, g.st);
            Reported(env, least, g, Progress(r.st, g.logs + r.logs, g.failed || !r.ok))
  {
    hide Commit, WritePending;
    var st, r := g.st, FlushBatch(env, g.st);
    var h := Progress(r.st, g.logs + r.logs, g.failed || !r.ok);
    CommitReports(env, st);
    if st.batch != [] && st.pendingBatch == "" {
      WriteReports(env, st);
      CommitReports(env, WritePending(env, st).0);
    }
    assert h.logs[|g.logs|..] == r.logs;
    assert r.st.log[|st.log|..] == [] && st.batch + KeptOf([]) == st.batch == r.logs + r.st.batch;
  }

  /** One entry: its record joins the batch, which is flushed exactly when it has grown to its size. */
  lemma ProcessMeaning(env: Env, st: AgentState, line: FileLine, now: int)
    ensures var s := Record(env, st, line, now);
            var decision := Decide(env.settings, line, now, st.drawn).0;
            && s.batch == st.batch + (if decision.Keep? then [decision.record] else [])
            && s.batchOffsets == st.batchOffsets[line.path := line.endOffset]
            && s.tailer == st.tailer && s.disk == st.disk && s.saves == st.saves && s.writes == st.writes && s.commits == st.commits
            && |s.log| == |st.log| + 1 && st.log <= s.log && s.log[|st.log|].decision == decision && s.log[|st.log|].line == line
            && s.released == st.released
            && ProcessLine(env, st, line, now)
            == if decision.Keep? && |st.batch| + 1 >= env.batchSize then FlushBatch(env, s) else Step(s, [], true)
  {
    hide Decide, FlushBatch;
  }

  lemma ProcessReports(env: Env, g: Progress, line: FileLine, now: int)
    requires env.batchSize >= 1
    ensures Reported(env, env.batchSize, g, Process(env, g, line, now))
  {
    hide Record, ProcessLine, FlushBatch, Decide, Trouble;
    var s := Record(env, g.st, line, now);
    var decision := Decide(env.settings, line, now, g.st.drawn).0;
    ProcessMeaning(env, g.st, line, now);
    var h := Progress(s, g.logs, g.failed);
    NotedReported(env, g, h, decision);
    if decision.Keep? && |g.st.batch| + 1 >= env.batchSize {
      FlushReports(env, env.batchSize, h);
      ReportedTwice(env, env.batchSize, g, h, Process(env, g, line, now));
    } else {
      assert g.logs + [] == g.logs;
    }
  }

  lemma NotedReported(env: Env, g: Progress, h: Progress, decision: Decision)
    requires h.logs == g.logs && h.failed == g.failed && h.st.disk == g.st.disk
    requires h.st.saves == g.st.saves && h.st.writes == g.st.writes && h.st.commits == g.st.commits
    requires |h.st.log| == |g.st.log| + 1 && g.st.log <= h.st.log && h.st.log[|g.st.log|].decision == decision
    requires h.st.batch == g.st.batch + (if decision.Keep? then [decision.record] else [])
    ensures Reported(env, env.batchSize, g, h)
  {
    var more := h.st.log[|g.st.log|..];
    assert more == [h.st.log[|g.st.log|]] && more[..0] == [];
    assert KeptOf(more) == if decision.Keep? then [decision.record] else [];
    assert h.logs[|g.logs|..] == [];
  }

  lemma {:induction false} ProcessAllReports(env: Env, g: Progress, lines: seq<FileLine>, now: int)
    requires env.batchSize >= 1
    ensures Reported(env, env.batchSize, g, ProcessAll(env, g, lines, now))
    decreases |lines|
  {
    hide Process, Reported, Quiet;
    if lines == [] {
      NothingReported(env, env.batchSize, g);
    } else {
      ProcessReports(env, g, lines[0], now);
      ProcessAllReports(env, Process(env, g, lines[0], now), lines[1..], now);
      ReportedTwice(env, env.batchSize, g, Process(env, g, lines[0], now), ProcessAll(env, g, lines, now));
    }
  }

  lemma NothingReported(env: Env, least: int, g: Progress)
    ensures Reported(env, least, g, g)
  {
    QuietReported(env, least, g, g);
  }

  /** A step that first does nothing to be reported. */
  lemma QuietThen(env: Env, least: int, g: Progress, h: Progress, k: Progress)
    requires Quiet(g.st, h.st) && h.logs == g.logs && h.failed == g.failed && Reported(env, least, h, k)
    ensures Reported(env, least, g, k)
  {
    hide Reported, Quiet;
    QuietReported(env, least, g, h);
    ReportedTwice(env, least, g, h, k);
  }

  lemma AddReports(env: Env, g: Progress, line: FileLine, now: int)
    requires env.batchSize >= 1
    ensures Reported(env, env.batchSize, g, AddLine(env, g, line, now))
  {
    hide Stacks.Add, ProcessAll, Reported;
    var (stacks, completed) := Stacks.Add(g.st.stacks, line, now);
    var h := g.(st := g.st.(stacks := stacks));
    ProcessAllReports(env, h, completed, now);
    QuietThen(env, env.batchSize, g, h, AddLine(env, g, line, now));
  }

  lemma {:induction false} FeedReports(env: Env, g: Progress, lines: seq<FileLine>, now: int)
    requires env.batchSize >= 1
    ensures Reported(env, env.batchSize, g, FeedLines(env, g, lines, now))
    decreases |lines|
  {
    hide AddLine, Reported;
    if lines == [] {
      NothingReported(env, env.batchSize, g);
    } else {
      AddReports(env, g, lines[0], now);
      FeedReports(env, AddLine(env, g, lines[0], now), lines[1..], now);
      ReportedTwice(env, env.batchSize, g, AddLine(env, g, lines[0], now), FeedLines(env, g, lines, now));
    }
  }

  /** After something that is not reported an entry may be processed. */
  lemma MaybeProcessed(env: Env, g: Progress, h: Progress, pending: Option<FileLine>, now: int)
    requires env.batchSize >= 1 && Quiet(g.st, h.st) && h.logs == g.logs && h.failed == g.failed
    ensures Reported(env, env.batchSize, g, if pending.Some? then Process(env, h, pending.value, now) else h)
  {
    hide Process, Reported, Quiet;
    if pending.Some? {
      ProcessReports(env, h, pending.value, now);
      QuietThen(env, env.batchSize, g, h, Process(env, h, pending.value, now));
    } else {
      QuietReported(env, env.batchSize, g, h);
    }
  }

  lemma ResetReports(env: Env, g: Progress, path: string, now: int)
    requires env.batchSize >= 1
    ensures Reported(env, env.batchSize, g, ResetOne(env, g, path, now))
  {
    hide Stacks.Flush, Process, Reported;
    var (stacks, pending) := Stacks.Flush(g.st.stacks, path);
    var h := g.(st := g.st.(batchOffsets := g.st.batchOffsets[path := 0], stacks := stacks));
    MaybeProcessed(env, g, h, if pending.Some? then Some(pending.value.(endOffset := 0)) else None, now);
  }

  lemma {:induction false} ResetsReport(env: Env, g: Progress, paths: seq<string>, now: int)
    requires env.batchSize >= 1
    ensures Reported(env, env.batchSize, g, Resets(env, g, paths, now))
    decreases |paths|
  {
    hide ResetOne, Reported;
    if paths == [] {
      NothingReported(env, env.batchSize, g);
    } else {
      ResetReports(env, g, paths[0], now);
      ResetsReport(env, ResetOne(env, g, paths[0], now), paths[1..], now);
      ReportedTwice(env, env.batchSize, g, ResetOne(env, g, paths[0], now), Resets(env, g, paths, now));
    }
  }

  lemma IdleReports(env: Env, g: Progress, path: string, now: int)
    requires env.batchSize >= 1
    ensures Reported(env, env.batchSize, g, IdleOne(env, g, path, now))
  {
    hide Stacks.FlushIdle, Process, Reported;
    var (stacks, pending) := Stacks.FlushIdle(g.st.stacks, path, now, IdleFor(env));
    var h := g.(st := g.st.(stacks := stacks,
                            released := if pending.Some? then g.st.released + [pending.value] else g.st.released));
    MaybeProcessed(env, g, h, pending, now);
  }

  lemma {:induction false} IdlesReport(env: Env, g: Progress, files: seq<string>, now: int)
    requires env.batchSize >= 1
    ensures Reported(env, env.batchSize, g, Idles(env, g, files, now))
    decreases |files|
  {
    hide IdleOne, Reported;
    if files == [] {
      NothingReported(env, env.batchSize, g);
    } else {
      IdleReports(env, g, files[0], now);
      IdlesReport(env, IdleOne(env, g, files[0], now), files[1..], now);
      ReportedTwice(env, env.batchSize, g, IdleOne(env, g, files[0], now), Idles(env, g, files, now));
    }
  }

  lemma FinishReports(env: Env, least: int, g: Progress)
    ensures Reported(env, least, g, Finish(env, g))
  {
    hide Reported;
    if g.st.batch == [] {
      hide Commit;
      FlushReports(env, least, g);
      assert g.logs + [] == g.logs;
    } else {
      NothingReported(env, least, g);
    }
  }

  /** A poll reports an error exactly when a file could not be read or a write or a commit failed;
      what it returns and what stays in the batch are, in order, what was in the batch and what was
      kept; and each batch that it publishes is full. */
  lemma PollReports(env: Env, st: AgentState, obs: string -> Observation, now: int)
    requires ValidEnv(env)
    ensures var g := Poll(env, st, obs, now);
            && Ahead(st, g.st) && Returns(st, g.st, g.logs) && Filled(st, g.st, env.batchSize)
            && (g.failed <==> Trouble(env, st, g.st) || exists q | q in env.files :: Troubled(obs(q)))
  {
    hide Resets, FeedLines, Idles, Finish, ReadAll, Distinct, Reported;
    var r := ReadNew(st.tailer, env.files, obs);
    PollMeaning(Reading(st.tailer, [], [], false), env.files, obs, "");
    var start := Progress(st.(tailer := r.tailer), [], r.failed);
    var a := Resets(env, start, r.resets, now);
    var b := FeedLines(env, a, r.lines, now);
    var c := Idles(env, b, env.files, now);
    ResetsReport(env, start, r.resets, now);
    FeedReports(env, a, r.lines, now);
    ReportedTwice(env, env.batchSize, start, a, b);
    IdlesReport(env, b, env.files, now);
    ReportedTwice(env, env.batchSize, start, b, c);
    FinishReports(env, env.batchSize, c);
    ReportedTwice(env, env.batchSize, start, c, Finish(env, c));
    FromStart(env, env.batchSize, st, start, Finish(env, c));
  }

  lemma FromStart(env: Env, least: int, st: AgentState, start: Progress, h: Progress)
    requires Quiet(st, start.st) && start.logs == [] && Reported(env, least, start, h)
    ensures Ahead(st, h.st) && Returns(st, h.st, h.logs) && Filled(st, h.st, least)
    ensures h.failed <==> start.failed || Trouble(env, st, h.st)
  {
    assert h.logs[0..] == h.logs;
  }

  lemma {:induction false} FlushOpenReports(env: Env, g: Progress, files: seq<string>, now: int)
    requires env.batchSize >= 1
    ensures Reported(env, env.batchSize, g, FlushOpen(env, g, files, now))
    decreases |files|
  {
    hide FlushOne, Reported;
    if files == [] || g.failed {
      NothingReported(env, env.batchSize, g);
    } else {
      FlushOneReports(env, g, files[0], now);
      FlushOpenReports(env, FlushOne(env, g, files[0], now), files[1..], now);
      ReportedTwice(env, env.batchSize, g, FlushOne(env, g, files[0], now), FlushOpen(env, g, files, now));
    }
  }

  lemma FlushOneReports(env: Env, g: Progress, path: string, now: int)
    requires env.batchSize >= 1
    ensures Reported(env, env.batchSize, g, FlushOne(env, g, path, now))
  {
    hide Stacks.Flush, Process, Reported;
    var (stacks, pending) := Stacks.Flush(g.st.stacks, path);
    var h := g.(st := g.st.(stacks := stacks,
                            released := if pending.Some? then g.st.released + [pending.value] else g.st.released));
    MaybeProcessed(env, g, h, pending, now);
  }

  lemma FilledLess(env: Env, g: Progress, h: Progress)
    requires env.batchSize >= 1 && Reported(env, env.batchSize, g, h)
    ensures Reported(env, 1, g, h)
  {
    hide Trouble, Returns;
  }

  /** The same for a shutdown, which stops at the first error, and for a flush; each batch that they
      publish holds a record. */
  lemma ShutdownReports(env: Env, st: AgentState, now: int)
    requires ValidEnv(env)
    ensures var g := Flush(env, st, now);
            && Ahead(st, g.st) && Returns(st, g.st, g.logs) && Filled(st, g.st, 1)
            && (g.failed <==> Trouble(env, st, g.st))
    ensures var r := FlushBatch(env, st);
            && Ahead(st, r.st) && Returns(st, r.st, r.logs) && Filled(st, r.st, 1)
            && (!r.ok <==> Trouble(env, st, r.st))
  {
    hide FlushOpen, FlushBatch, Reported, Distinct;
    var start := Progress(st, [], false);
    var g := FlushOpen(env, start, env.files, now);
    FlushOpenReports(env, start, env.files, now);
    FilledLess(env, start, g);
    FlushReports(env, 1, g);
    FlushReports(env, 1, start);
    var r, f := FlushBatch(env, st), Flush(env, st, now);
    FromStart(env, 1, st, start, Progress(r.st, [] + r.logs, false || !r.ok));
    assert [] + r.logs == r.logs;
    if !g.failed { ReportedTwice(env, 1, start, g, f); }
    FromStart(env, 1, st, start, f);
  }

  /** Whatever the assembler has been through, a poll releases the held-back entry of a file exactly
      when the last line of that file came in at least the flush interval ago, or five seconds when
      none is set. */
  lemma IdleReleases(env: Env, g: Progress, acts: seq<Stacks.Act>, path: string, now: int)
    requires g.st.stacks == Stacks.PerformAll(Stacks.EMPTY, acts).0
    ensures var held := Stacks.Open(g.st.stacks, path);
            && (held.Some? ==> Stacks.LastFed(acts, path).Some?)
            && IdleOne(env, g, path, now).st.released
            == if held.Some? && now - Stacks.LastFed(acts, path).value
                                >= (if env.flushInterval > 0 then env.flushInterval else 5_000_000_000)
               then g.st.released + [held.value] else g.st.released
  {
    Stacks.IdleMeaning(acts, path, now, IdleFor(env));
    hide Stacks.PerformAll, Stacks.FlushIdle, Stacks.Open, Stacks.LastFed, Process;
    var (stacks, pending) := Stacks.FlushIdle(g.st.stacks, path, now, IdleFor(env));
    if pending.Some? {
      ProcessKeepsReleased(env, g.(st := g.st.(stacks := stacks, released := g.st.released + [pending.value])), pending.value, now);
    }
  }

  lemma ProcessKeepsReleased(env: Env, g: Progress, line: FileLine, now: int)
    ensures Process(env, g, line, now).st.released == g.st.released
  {
    hide Decide, FlushBatch, Record, ProcessLine;
    ProcessMeaning(env, g.st, line, now);
    FlushKeepsReleased(env, Record(env, g.st, line, now));
  }

  lemma FlushKeepsReleased(env: Env, st: AgentState)
    ensures FlushBatch(env, st).st.released == st.released
  {
    hide Commit, WritePending;
    CommitReports(env, st);
    WriteReports(env, st);
    CommitReports(env, WritePending(env, st).0);
  }
}
