/**
 Whole runs of the agent: polls, flushes, the sender working on the queue in
 between, and crashes placed after any durable effect; and what every run over
 growing files keeps.
 */
module AgentRuns {
  import opened Tailing
  import Stacks
  import opened Schema
  import opened Names
  import opened Text
  import opened Eviction
  import opened BatchStores
  import opened Processing
  import opened Agents
  import opened AgentSafety
  import opened AgentSteps

  datatype Event =
    | Polled(now: int, obs: string -> Observation)
    | Flushed
    | ShutDown(now: int)
    | Drained
    | SenderActs(op: DiskOp)
    | Crashed(at: nat, stuck: set<string>, nanos: nat)

  /** The agent as it restarts from what a crash left: nothing in memory, offsets and queue
      from disk, claims recovered; only the histories and the oracles' counters go on. */
  function Boot(st: AgentState, d: Durable, stuck: set<string>, nanos: nat): AgentState {
    var disk := RecoverClaims(d.disk, stuck, nanos).0;
    var crashed, lateCrashed := d.crashed + d.unsaved, d.lateCrashed + d.waiting;
    Start(TailerState(d.offsets, d.offsets), disk)
      .(writes := st.writes, saves := st.saves, drawn := st.drawn, log := d.log, fates := Moved(d.fates, Lost),
        commits := d.commits, late := d.late, dropped := d.dropped,
        crashed := crashed, lateCrashed := lateCrashed, drainedByLevel := st.drainedByLevel,
        drainedBySampling := st.drainedBySampling, released := st.released, refused := st.refused,
        trail := [Durable(d.offsets, disk, d.log, Moved(d.fates, Lost), d.commits, d.late, d.dropped, crashed, lateCrashed, [], [])])
  }

  function Next(env: Env, st: AgentState, ev: Event): AgentState {
    match ev
    case Polled(now, obs) => Poll(env, st, obs, now).st
    case Flushed => FlushBatch(env, st).st
    case ShutDown(now) => Agents.Flush(env, st, now).st
    case Drained => Drain(st)
    case SenderActs(op) => if op.Write? then st else Mark(st.(disk := Apply(st.disk, env.maxBytes, op)))
    case Crashed(at, stuck, nanos) => if at < |st.trail| then Boot(st, st.trail[at], stuck, nanos) else st
  }

  function Run(env: Env, st: AgentState, evs: seq<Event>): AgentState {
    if evs == [] then st else Next(env, Run(env, st, evs[..|evs| - 1]), evs[|evs| - 1])
  }

  /** Every poll of the run sees append-only files. */
  ghost predicate AppendOnlyRun(env: Env, st: AgentState, W: World, evs: seq<Event>) {
    evs == [] ||
    var before := evs[..|evs| - 1];
    var ev := evs[|evs| - 1];
    AppendOnlyRun(env, st, W, before)
    && (ev.Polled? ==> AppendOnly(Run(env, st, before), W, env.files, ev.obs))
  }

  const FRESH := Start(TailerState(map[], map[]), EMPTY_DISK)

  /** When an event happens, as far as it reads a clock. */
  function TimeOf(ev: Event): int {
    if ev.Polled? || ev.ShutDown? then ev.now else 0
  }

  /** Whatever the small steps at an event's time keep, the event keeps. */
  lemma EventKeeps(env: Env, I: AgentState -> bool, st: AgentState, ev: Event)
    requires ev.Polled? || ev.Flushed? || ev.ShutDown?
    requires Closed(env, TimeOf(ev), I) && I(st)
    ensures I(Next(env, st, ev))
  {
    hide Closed, Poll, FlushBatch, Agents.Flush;
    match ev
    case Polled(now, obs) => PollKeeps(env, now, I, st, obs);
    case Flushed => FlushKeeps(env, 0, I, st);
    case ShutDown(now) => FlushAllKeeps(env, now, I, st);
  }

  // ---------------------------------------------------------------- the queue's history

  /** Only the agent publishes. */
  lemma OpPublished(d: Disk, maxBytes: int, op: DiskOp)
    requires !op.Write?
    ensures Apply(d, maxBytes, op).published == d.published
  {
    hide WithoutSuffix, EndsWith, RecoverAll;
    if op.Recover? { RecoverHistory(d, Claims(d.directory), op.stuck, op.nanos); }
  }

  // ---------------------------------------------------------------- safety of every run

  lemma DiskSound(st: AgentState, W: World, disk: Disk)
    requires Sound(st, W, []) && disk.published == st.disk.published
    ensures Sound(st.(disk := disk), W, [])
  {
    var s := st.(disk := disk);
    forall p ensures PathSound(s, W(p), p, Done(s, p), ForPath([], p)) {
      assert PathSound(st, W(p), p, Done(st, p), ForPath([], p));
    }
    assert Unsaved(s) == Unsaved(st);
    hide CoveredTo, Safe, LogOk;
  }

  lemma DrainSound(st: AgentState, W: World)
    requires Sound(st, W, [])
    ensures Sound(Drain(st), W, [])
  {
    var s := Drain(st);
    forall p ensures PathSound(s, W(p), p, Done(s, p), ForPath([], p)) {
      assert PathSound(st, W(p), p, Done(st, p), ForPath([], p));
    }
    hide CoveredTo, Safe, LogOk;
  }

  lemma BootCovered(d: Durable, W: World)
    requires Safe(d, W)
    ensures forall p :: CoveredTo(d.log, Moved(d.fates, Lost), SETTLED, W(p), p, Get(d.offsets, p))
    ensures forall p :: CoveredTo(d.log, Moved(d.fates, Lost), PROCESSED, W(p), p, Get(d.offsets, p))
  {
    hide CoveredTo, LogOk;
    forall p
      ensures CoveredTo(d.log, Moved(d.fates, Lost), SETTLED, W(p), p, Get(d.offsets, p))
      ensures CoveredTo(d.log, Moved(d.fates, Lost), PROCESSED, W(p), p, Get(d.offsets, p))
    {
      CoveredMore(d.log, d.fates, SETTLED, d.log, Moved(d.fates, Lost), SETTLED, W(p), p, Get(d.offsets, p));
      CoveredMore(d.log, d.fates, SETTLED, d.log, Moved(d.fates, Lost), PROCESSED, W(p), p, Get(d.offsets, p));
    }
  }

  lemma BootSound(st: AgentState, W: World, d: Durable, stuck: set<string>, nanos: nat)
    requires Safe(d, W) && st.refused == 0
    ensures Sound(Boot(st, d, stuck, nanos), W, [])
  {
    RecoverHistory(d.disk, Claims(d.disk.directory), stuck, nanos);
    var s := Boot(st, d, stuck, nanos);
    BootCovered(d, W);
    forall p ensures PathSound(s, W(p), p, Done(s, p), ForPath([], p)) {
      assert Get(d.offsets, p) <= |W(p)| && Boundary(W(p), Get(d.offsets, p));
      BetweenHead(p, W(p), Get(d.offsets, p), Get(d.offsets, p));
    }
    hide CoveredTo, RecoverClaims;
  }

  lemma NextSound(env: Env, st: AgentState, W: World, ev: Event)
    requires ValidEnv(env) && Sound(st, W, [])
    requires ev.Polled? ==> AppendOnly(st, W, env.files, ev.obs)
    ensures Sound(Next(env, st, ev), W, [])
  {
    SoundTrail(st, W);
    hide Sound, Safe, Poll, FlushBatch, Agents.Flush, Boot, Apply;
    match ev
    case Polled(now, obs) => PollSound(env, st, W, obs, now);
    case Flushed => FlushSound(env, st, W, []);
    case ShutDown(now) => FlushAllSound(env, st, W, now);
    case Drained => DrainSound(st, W);
    case SenderActs(op) =>
      if !op.Write? {
        OpPublished(st.disk, env.maxBytes, op);
        DiskSound(st, W, Apply(st.disk, env.maxBytes, op));
        MarkSound(st.(disk := Apply(st.disk, env.maxBytes, op)), W, []);
      }
    case Crashed(at, stuck, nanos) =>
      if at < |st.trail| { BootSound(st, W, st.trail[at], stuck, nanos); }
  }

  lemma SoundTrail(st: AgentState, W: World)
    requires Sound(st, W, [])
    ensures st.refused == 0 && forall i | 0 <= i < |st.trail| :: Safe(st.trail[i], W)
  {
  }

  lemma FreshSound(W: World)
    ensures Sound(FRESH, W, [])
  {
    forall p ensures PathSound(FRESH, W(p), p, Done(FRESH, p), ForPath([], p)) {
      BetweenHead(p, W(p), 0, 0);
    }
  }

  lemma {:induction false} RunSound(env: Env, W: World, evs: seq<Event>)
    requires ValidEnv(env) && AppendOnlyRun(env, FRESH, W, evs)
    ensures Sound(Run(env, FRESH, evs), W, [])
  {
    hide Sound, Next;
    if evs == [] {
      FreshSound(W);
    } else {
      RunSound(env, W, evs[..|evs| - 1]);
      NextSound(env, Run(env, FRESH, evs[..|evs| - 1]), W, evs[|evs| - 1]);
    }
  }

  /** In every run over append-only files each complete line at or before a committed offset is
      held by an entry that was filtered, or whose record is in a published batch or dropped; the
      entries are made of exactly the files' lines; and what is still held back lies behind the
      offset. */
  lemma SettledBehindOffset(env: Env, W: World, evs: seq<Event>, p: string, e: int)
    requires ValidEnv(env) && AppendOnlyRun(env, FRESH, W, evs)
    requires var st := Run(env, FRESH, evs);
             LineBreak(W(p), e) && e <= Get(st.tailer.offsets, p)
    ensures var st := Run(env, FRESH, evs);
            && Settled(st.log, st.fates, SETTLED, p, e)
            && LogOk(st.log, W)
            && (p in st.stacks.pending ==>
                  && Get(st.tailer.offsets, p) < st.stacks.pending[p].endOffset
                  && EntryText(W(p), Done(st, p), st.stacks.pending[p]))
  {
    RunSound(env, W, evs);
    var st := Run(env, FRESH, evs);
    assert PathSound(st, W(p), p, Done(st, p), ForPath([], p));
    assert CoveredTo(st.log, st.fates, SETTLED, W(p), p, Get(st.tailer.offsets, p));
  }

  /** Commits are never refused in append-only runs. */
  lemma CommitsNeverRefused(env: Env, W: World, evs: seq<Event>)
    requires ValidEnv(env) && AppendOnlyRun(env, FRESH, W, evs)
    ensures Run(env, FRESH, evs).refused == 0
    ensures CommitAllowed(Run(env, FRESH, evs).tailer, Run(env, FRESH, evs).batchOffsets)
  {
    RunSound(env, W, evs);
    CommitMoves(Run(env, FRESH, evs), W, [], "");
  }

  /** Where every save of the offsets succeeds, no record is ever dropped. */
  lemma {:induction false} SavesLoseNothing(env: Env, W: World, evs: seq<Event>)
    requires ValidEnv(env) && AppendOnlyRun(env, FRESH, W, evs) && AlwaysSaves(env)
    ensures Calm(Run(env, FRESH, evs))
  {
    hide Sound, Next;
    if evs != [] {
      var before, ev := evs[..|evs| - 1], evs[|evs| - 1];
      SavesLoseNothing(env, W, before);
      RunSound(env, W, before);
      NextCalm(env, Run(env, FRESH, before), W, ev);
    }
  }

  lemma NextCalm(env: Env, st: AgentState, W: World, ev: Event)
    requires ValidEnv(env) && Sound(st, W, []) && AlwaysSaves(env) && Calm(st)
    requires ev.Polled? ==> AppendOnly(st, W, env.files, ev.obs)
    ensures Calm(Next(env, st, ev))
  {
    hide Poll, FlushBatch, Agents.Flush, Apply, RecoverClaims, Covered, Steady, LogOk, TrailSafe;
    match ev
    case Polled(now, obs) => PollSound(env, st, W, obs, now);
    case Flushed => FlushSound(env, st, W, []);
    case ShutDown(now) => FlushAllSound(env, st, W, now);
    case Drained =>
    case SenderActs(op) =>
    case Crashed(at, stuck, nanos) =>
      if at < |st.trail| { assert st.trail[at] in st.trail; }
  }
}
