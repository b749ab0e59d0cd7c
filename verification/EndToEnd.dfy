/**
 From a line of a file to the stream: the agent of `AgentRuns` and the protocol
 of `Delivery` share one disk queue, and every line behind a committed offset is
 followed until its record is in the stream.
 */
module EndToEnd {
  import opened Tailing
  import opened Schema
  import opened Names
  import opened Text
  import opened Eviction
  import opened BatchStores
  import opened Processing
  import opened Agents
  import opened AgentSafety
  import opened AgentSteps
  import AgentRuns
  import AgentBooks
  import opened AgentQueue
  import Ingest
  import opened Senders
  import opened Delivery

  datatype Move = AgentMoves(ev: AgentRuns.Event) | NetMoves(step: Delivery.Step)

  /** The network, and the events of the agent so far; the agent is where they lead. */
  datatype Whole = Whole(net: Net, events: seq<AgentRuns.Event>)

  function AgentOf(env: Env, w: Whole): AgentState {
    AgentRuns.Run(env, AgentRuns.FRESH, w.events)
  }

  /** What a step of the sender does to the disk queue. */
  function OpOf(s: Setup, n: Net, step: Delivery.Step): Option<DiskOp> {
    match step
    case Claims(stuck) => if n.mode == Idle then Some(Claim(stuck)) else None
    case Receives(now, o) =>
      if n.mode.Waiting? && n.mode.call < |n.calls| && n.calls[n.mode.call].phase.Done? then
        var c, d := n.mode.claimed, Classify(true, n.calls[n.mode.call].phase.answer, now);
        if d == Succeeded && DeleteClaim(n.disk, c, o.removeOk).1 then Some(Delete(c, o.removeOk))
        else if d == Failed && MoveToFailed(n.disk, c, o.moveOk).1 then Some(Quarantine(c, o.moveOk))
        else Some(Unclaim(c, o.renameOk, o.stuck))
      else None
    case GivesUp(renameOk, stuck) => if n.mode == Idle then None else Some(Unclaim(n.mode.claimed, renameOk, stuck))
    case _ => None
  }

  /** Writing is the agent's business, and a restart happens to both at once. */
  predicate Foreign(m: Move) {
    (m.AgentMoves? && m.ev.SenderActs?) || (m.NetMoves? && (m.step.Writes? || m.step.Restarts?))
  }

  function Advance(env: Env, s: Setup, w: Whole, m: Move): Whole {
    if Foreign(m) then w
    else
      match m
      case AgentMoves(ev) =>
        var w1 := w.(events := w.events + [ev]);
        w1.(net := w.net.(disk := AgentOf(env, w1).disk, mode := if ev.Crashed? then Idle else w.net.mode))
      case NetMoves(step) =>
        var op := OpOf(s, w.net, step);
        Whole(Go(s, w.net, step), if op.Some? then w.events + [AgentRuns.SenderActs(op.value)] else w.events)
  }

  const BEGIN := Whole(START, [])

  function AdvanceAll(env: Env, s: Setup, moves: seq<Move>): Whole {
    if moves == [] then BEGIN else Advance(env, s, AdvanceAll(env, s, moves[..|moves| - 1]), moves[|moves| - 1])
  }

  lemma RunSnoc(env: Env, events: seq<AgentRuns.Event>, ev: AgentRuns.Event)
    ensures AgentRuns.Run(env, AgentRuns.FRESH, events + [ev])
         == AgentRuns.Next(env, AgentRuns.Run(env, AgentRuns.FRESH, events), ev)
  {
    hide AgentRuns.Next;
    assert (events + [ev])[..|events|] == events;
  }

  // ---------------------------------------------------------------- what the agent leaves alone

  /** From `d` to `e` nothing was claimed, delivered or quarantined. */
  ghost predicate Extends(d: Disk, e: Disk) {
    && e.delivered == d.delivered && e.failed == d.failed
    && forall c | EndsWith(c, CLAIMED) && c in e.directory :: c in d.directory && e.directory[c] == d.directory[c]
  }

  lemma PublishExtends(d: Disk, e: Disk, maxBytes: int, records: seq<Log>, io: WriteIO)
    requires Extends(d, e)
    ensures Extends(d, Publish(e, maxBytes, records, io))
  {
    hide Publish, EndsWith;
    PublishDelivers(e, maxBytes, records, io);
    var f := Publish(e, maxBytes, records, io);
    forall c | EndsWith(c, CLAIMED) && c in f.directory ensures c in d.directory && f.directory[c] == d.directory[c] {
      PublishKeeps(e, maxBytes, records, io, c);
    }
  }

  /** Since `st0` the agent has only published. */
  ghost predicate OnlyPublished(st0: AgentState, st: AgentState) {
    Extends(st0.disk, st.disk) && forall d | d in st.trail :: d in st0.trail || Extends(st0.disk, d.disk)
  }

  lemma OnlyPublishedClosed(env: Env, now: int, st0: AgentState)
    ensures Closed(env, now, st => OnlyPublished(st0, st))
  {
    hide Extends;
    var I := st => OnlyPublished(st0, st);
    forall st, m | I(st) && Enabled(st, m) ensures I(Do(env, now, st, m)) {
      match m
      case Take(line) => hide Decide, Agents.Done;
      case Save => SaveExtends(env, st0, st); hide Commit;
      case Put => PutExtends(env, st0, st); hide WritePending;
      case Clear =>
      case Shift(_, _, _, _) =>
    }
  }

  lemma SaveExtends(env: Env, st0: AgentState, st: AgentState)
    requires OnlyPublished(st0, st)
    ensures OnlyPublished(st0, Commit(env, st).0)
  {
    hide Extends, CommitAllowed, Candidate, Unsaved;
  }

  lemma PutExtends(env: Env, st0: AgentState, st: AgentState)
    requires OnlyPublished(st0, st)
    ensures OnlyPublished(st0, WritePending(env, st).0)
  {
    hide Extends, Publish, NewBatchName, Unsaved;
    PublishExtends(st0.disk, st.disk, env.maxBytes, st.batch, env.write(st.writes));
  }

  lemma AgentOnlyPublishes(env: Env, st: AgentState, ev: AgentRuns.Event)
    requires ev.Polled? || ev.Flushed? || ev.ShutDown? || ev.Drained?
    ensures OnlyPublished(st, AgentRuns.Next(env, st, ev))
  {
    hide Closed, Poll, FlushBatch, Agents.Flush;
    var I := s => OnlyPublished(st, s);
    assert I(st);
    if !ev.Drained? {
      OnlyPublishedClosed(env, AgentRuns.TimeOf(ev), st);
      AgentRuns.EventKeeps(env, I, st, ev);
    }
  }

  // ---------------------------------------------------------------- the invariant

  /** Some call stands behind whatever counted as delivered or quarantined at a durable moment. */
  ghost predicate TrailVouched(n: Net, trail: seq<Durable>) {
    forall d | d in trail :: Vouched(n, d.disk.delivered, ACCEPTED) && Vouched(n, d.disk.failed, REFUSED)
  }

  ghost predicate WholeOk(env: Env, s: Setup, w: Whole) {
    && NetOk(s, w.net) && w.net.disk == AgentOf(env, w).disk
    && TrailVouched(w.net, AgentOf(env, w).trail) && ProperActs(w.events)
  }

  lemma AgentStepOk(s: Setup, n: Net, a: AgentState, b: AgentState)
    requires NetOk(s, n) && n.disk == a.disk && OnlyPublished(a, b) && TrailVouched(n, a.trail)
    ensures NetOk(s, n.(disk := b.disk)) && TrailVouched(n.(disk := b.disk), b.trail)
  {
    var m := n.(disk := b.disk);
    hide CallOk, Carried, EndsWith;
    DiskMoves(s, n, m);
    forall d | d in b.trail ensures Vouched(m, d.disk.delivered, ACCEPTED) && Vouched(m, d.disk.failed, REFUSED) {
      hide Vouched;
      if d in a.trail { assert Vouched(n, d.disk.delivered, ACCEPTED) && Vouched(n, d.disk.failed, REFUSED); }
      StillVouchedHere(n, m, d.disk, d in a.trail);
    }
  }

  lemma StillVouchedHere(n: Net, m: Net, d: Disk, before: bool)
    requires m.calls == n.calls
    requires before ==> Vouched(n, d.delivered, ACCEPTED) && Vouched(n, d.failed, REFUSED)
    requires !before ==> Vouched(n, n.disk.delivered, ACCEPTED) && Vouched(n, n.disk.failed, REFUSED)
                         && d.delivered == n.disk.delivered && d.failed == n.disk.failed
    ensures Vouched(m, d.delivered, ACCEPTED) && Vouched(m, d.failed, REFUSED)
  {
    StillVouched(n, m, d.delivered, ACCEPTED);
    StillVouched(n, m, d.failed, REFUSED);
  }

  lemma CrashOk(s: Setup, n: Net, d: Durable, stuck: set<string>, nanos: nat)
    requires NetOk(s, n) && Vouched(n, d.disk.delivered, ACCEPTED) && Vouched(n, d.disk.failed, REFUSED)
    ensures var disk := RecoverClaims(d.disk, stuck, nanos).0;
            NetOk(s, n.(disk := disk, mode := Idle))
            && Vouched(n.(disk := disk, mode := Idle), disk.delivered, ACCEPTED)
            && Vouched(n.(disk := disk, mode := Idle), disk.failed, REFUSED)
  {
    RecoverHistory(d.disk, BatchStores.Claims(d.disk.directory), stuck, nanos);
    var m := n.(disk := RecoverClaims(d.disk, stuck, nanos).0, mode := Idle);
    hide RecoverAll, Carried, Vouched, Arrived, Prepare;
    StillVouched(n, m, d.disk.delivered, ACCEPTED);
    StillVouched(n, m, d.disk.failed, REFUSED);
    forall k: nat | k < |m.calls| ensures CallOk(s, m, k) { assert CallOk(s, n, k); }
  }

  /** Calls that are over stay as they are. */
  lemma CallsStay(s: Setup, n: Net, step: Delivery.Step)
    ensures |n.calls| <= |Go(s, n, step).calls|
    ensures forall j: nat | j < |n.calls| && n.calls[j].phase.Done? :: Go(s, n, step).calls[j] == n.calls[j]
  {
    hide Publish, ClaimOldest, Settle, Return, RecoverAll, Prepare, Ingest.Admit, Ingest.Answer, Ingest.Landed, Classify, WithoutSuffix;
  }

  /** A step of the protocol does to the disk what its operation says. */
  lemma OpIs(s: Setup, n: Net, step: Delivery.Step)
    requires ModeOk(n) && !step.Writes? && !step.Restarts?
    ensures var op := OpOf(s, n, step);
            && Go(s, n, step).disk == (if op.Some? then Apply(n.disk, s.maxBytes, op.value) else n.disk)
            && (op.Some? ==> !op.value.Write? && Proper(EMPTY_DISK, op.value))
  {
    hide ClaimOldest, DeleteClaim, MoveToFailed, Return, Prepare, Ingest.Admit, Ingest.Answer, Ingest.Landed, Classify, WithoutSuffix,
         EndsWith;
    if step.Claims? { NoClaimNoChange(n.disk, step.stuck); }
  }

  lemma NetStepOk(env: Env, s: Setup, n: Net, a: AgentState, step: Delivery.Step)
    requires NetOk(s, n) && n.disk == a.disk && TrailVouched(n, a.trail) && env.maxBytes == s.maxBytes
    requires !step.Writes? && !step.Restarts?
    ensures var op := OpOf(s, n, step);
            var b := if op.Some? then AgentRuns.Next(env, a, AgentRuns.SenderActs(op.value)) else a;
            var m := Go(s, n, step);
            NetOk(s, m) && m.disk == b.disk && TrailVouched(m, b.trail)
            && (op.Some? ==> Proper(EMPTY_DISK, op.value))
  {
    assert ModeOk(n);
    GoOk(s, n, step);
    OpIs(s, n, step);
    CallsStay(s, n, step);
    var m, op := Go(s, n, step), OpOf(s, n, step);
    assert Vouched(m, m.disk.delivered, ACCEPTED) && Vouched(m, m.disk.failed, REFUSED);
    hide Go, OpOf, Apply, Vouched, CallOk, ModeOk, Proper;
    var b := if op.Some? then AgentRuns.Next(env, a, AgentRuns.SenderActs(op.value)) else a;
    forall d | d in b.trail ensures Vouched(m, d.disk.delivered, ACCEPTED) && Vouched(m, d.disk.failed, REFUSED) {
      if d in a.trail {
        StillVouched(n, m, d.disk.delivered, ACCEPTED);
        StillVouched(n, m, d.disk.failed, REFUSED);
      } else {
        assert d.disk == m.disk;
      }
    }
  }

  lemma ProperSnoc(events: seq<AgentRuns.Event>, ev: AgentRuns.Event)
    requires ProperActs(events) && (ev.SenderActs? ==> Proper(EMPTY_DISK, ev.op))
    ensures ProperActs(events + [ev])
  {
    hide Proper;
  }

  lemma AdvanceOk(env: Env, s: Setup, w: Whole, m: Move)
    requires WholeOk(env, s, w) && env.maxBytes == s.maxBytes
    ensures WholeOk(env, s, Advance(env, s, w, m))
  {
    hide NetOk, Go, OpOf, AgentRuns.Next, AgentRuns.Run, ProperActs, OnlyPublished, Proper;
    if !Foreign(m) {
      var a := AgentOf(env, w);
      match m
      case AgentMoves(ev) =>
        RunSnoc(env, w.events, ev);
        ProperSnoc(w.events, ev);
        if ev.Crashed? {
          CrashStepOk(env, s, w.net, a, ev);
        } else {
          AgentOnlyPublishes(env, a, ev);
          AgentStepOk(s, w.net, a, AgentRuns.Next(env, a, ev));
          assert w.net.(disk := w.net.disk).mode == w.net.mode;
        }
      case NetMoves(step) =>
        NetStepOk(env, s, w.net, a, step);
        var op := OpOf(s, w.net, step);
        if op.Some? {
          RunSnoc(env, w.events, AgentRuns.SenderActs(op.value));
          ProperSnoc(w.events, AgentRuns.SenderActs(op.value));
        }
    }
  }

  lemma CrashStepOk(env: Env, s: Setup, n: Net, a: AgentState, ev: AgentRuns.Event)
    requires NetOk(s, n) && n.disk == a.disk && TrailVouched(n, a.trail) && ev.Crashed?
    ensures var b := AgentRuns.Next(env, a, ev);
            NetOk(s, n.(disk := b.disk, mode := Idle)) && TrailVouched(n.(disk := b.disk, mode := Idle), b.trail)
  {
    hide RecoverClaims;
    if ev.at < |a.trail| {
      var d := a.trail[ev.at];
      assert d in a.trail;
      CrashOk(s, n, d, ev.stuck, ev.nanos);
    } else {
      IdleOk(s, n);
      forall d | d in a.trail
        ensures Vouched(n.(mode := Idle), d.disk.delivered, ACCEPTED) && Vouched(n.(mode := Idle), d.disk.failed, REFUSED)
      {
        StillVouched(n, n.(mode := Idle), d.disk.delivered, ACCEPTED);
        StillVouched(n, n.(mode := Idle), d.disk.failed, REFUSED);
      }
    }
  }

  lemma IdleOk(s: Setup, n: Net)
    requires NetOk(s, n)
    ensures NetOk(s, n.(mode := Idle))
  {
    hide Arrived, Prepare, EndsWith;
    DiskMoves(s, n, n.(mode := Idle));
  }

  lemma {:induction false} AllOk(env: Env, s: Setup, moves: seq<Move>)
    requires env.maxBytes == s.maxBytes
    ensures WholeOk(env, s, AdvanceAll(env, s, moves))
  {
    hide Advance;
    if moves != [] {
      hide WholeOk;
      AllOk(env, s, moves[..|moves| - 1]);
      AdvanceOk(env, s, AdvanceAll(env, s, moves[..|moves| - 1]), moves[|moves| - 1]);
    }
  }

  // ---------------------------------------------------------------- the whole way

  /** Record `i` of call `k` is `r`, and that call appended it to the stream or it was rejected. */
  ghost predicate ArrivedAs(s: Setup, n: Net, k: nat, i: nat, r: Log) {
    && s.key in s.lib.keys && k < |n.calls| && i < |n.calls[k].records| && n.calls[k].records[i] == r
    && RecordArrived(s, n.calls[k], k, n.landed, i)
  }

  /** If batch `b` counts as delivered, accepted call `c` brought it and its record `k`. */
  ghost predicate Brought(s: Setup, n: Net, b: nat, k: nat, c: nat)
    requires b < |n.disk.published| && k < |n.disk.published[b].batch.records|
  {
    var pub := n.disk.published[b];
    pub.name in n.disk.delivered ==>
      Carried(n, c, pub.name, pub.batch, ACCEPTED) && ArrivedAs(s, n, c, k, pub.batch.records[k])
  }

  lemma DeliveredPlace(s: Setup, n: Net, b: nat, k: nat) returns (c: nat)
    requires NetOk(s, n) && b < |n.disk.published| && k < |n.disk.published[b].batch.records|
    requires Once(n.disk, n.disk.published[b].name, n.disk.published[b].batch)
    ensures Brought(s, n, b, k, c)
  {
    c := 0;
    var pub := n.disk.published[b];
    if pub.name in n.disk.delivered {
      assert n.disk.delivered[pub.name] == pub.batch;
      hide Once, RecordArrived;
      c :| Carried(n, c, pub.name, n.disk.delivered[pub.name], ACCEPTED);
      assert CallOk(s, n, c);
      assert RecordArrived(s, n.calls[c], c, n.landed, k);
    }
  }

  /** End to end: in every run of agent, sender, network and ingest together, over append-only
      files and with batch names that are never drawn twice, each complete line at or before a
      committed offset belongs to an entry decided by the configured rules; and unless that
      entry was filtered, or its own record was taken in too late and dropped, its own record
      stands in exactly one place, and where that place is "delivered" the stream has received
      this very record of the batch or ingest has rejected it. */
  lemma EveryLineIsPlaced(env: Env, s: Setup, W: World, moves: seq<Move>, p: string, e: int)
    returns (i: nat, b: nat, k: nat, c: nat)
    requires ValidEnv(env) && FreshNames(env) && env.maxBytes == s.maxBytes
    requires var w := AdvanceAll(env, s, moves);
             && AgentRuns.AppendOnlyRun(env, AgentRuns.FRESH, W, w.events)
             && LineBreak(W(p), e) && e <= Get(AgentOf(env, w).tailer.offsets, p)
    ensures var w := AdvanceAll(env, s, moves);
            var st := AgentOf(env, w);
            && Traced(st, p, e, i, b, k) && st.disk == w.net.disk
            && EntryText(W(p), st.log[i].from, st.log[i].line)
            && DecidedBy(env.settings, st.log[i]) && TimeIn(w.events, st.log[i].now)
            && (st.fates[i] == InQueue ==> Brought(s, w.net, b, k, c))
  {
    var w := AdvanceAll(env, s, moves);
    AllOk(env, s, moves);
    i, b, k := LinesAreTraced(env, W, w.events, p, e);
    hide AdvanceAll, AgentRuns.Run, AgentRuns.AppendOnlyRun, FreshNames, EntryText, DecidedBy, TimeIn, Once, NetOk, LineBreak, Brought,
         AgentBooks.Of, AgentBooks.Records;
    c := 0;
    if AgentOf(env, w).fates[i] == InQueue { c := DeliveredPlace(s, w.net, b, k); }
  }
}
