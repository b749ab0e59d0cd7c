/**
 Agent, network and ingest as one protocol. The agent publishes batches, its
 sender claims and posts them, and each post becomes a call that the ingest
 service admits, appends and answers in its own time: a call can be overtaken by
 a timeout, a retry or a restart and still append afterwards.
 */
module Delivery {
  import opened Tailing
  import opened Schema
  import opened Names
  import opened Text
  import opened Eviction
  import opened BatchStores
  import opened QueueLaws
  import Ingest
  import opened Senders

  /** `wire` is a record as it stands in the posted JSON array. */
  datatype Setup = Setup(lib: Ingest.Library, key: string, wire: Log -> string, maxBytes: int)

  /** A stream entry, with the batch, the position in it and the call that it came from. */
  datatype Item = Item(name: string, index: nat, call: nat, text: string)

  datatype Phase = Sent | Open(items: seq<Item>) | Done(answer: Answer)

  datatype Call = Call(name: string, records: seq<Log>, phase: Phase, at: Ingest.Readings)

  datatype Mode = Idle | Holding(claimed: string) | Waiting(claimed: string, call: nat)

  /** The whole system; `landed`, `claims` and `deliveries` are histories. */
  datatype Net = Net(disk: Disk, mode: Mode, calls: seq<Call>, length: nat,
                     landed: seq<Item>, claims: seq<string>, deliveries: seq<string>)

  datatype Step =
    | Writes(records: seq<Log>, io: WriteIO)
    | Claims(stuck: set<string>)
    | Sends
    | Admits(call: nat, lengthOk: bool, at: Ingest.Readings)
    | Appends(call: nat, outcome: nat -> Ingest.Command, pipelineOk: bool)
    | Bounces(call: nat, status: int)
    | Receives(now: int, files: Outcome)
    | GivesUp(renameOk: bool, stuck: set<string>)
    | Consumes(count: nat)
    | Restarts(stuck: set<string>, nanos: nat)

  function Raw(s: Setup, records: seq<Log>): seq<string> {
    seq(|records|, i requires 0 <= i < |records| => s.wire(records[i]))
  }

  function Serialized(s: Setup, records: seq<Log>, at: Ingest.Readings, i: nat): Option<string>
    requires i < |records| && s.key in s.lib.keys
  {
    Ingest.Serialize(s.lib, s.lib.keys[s.key], s.wire(records[i]), at(i))
  }

  /** The entries that a call appends, each tagged with where it comes from. */
  function Prepare(s: Setup, name: string, records: seq<Log>, at: Ingest.Readings, call: nat): seq<Item>
    requires s.key in s.lib.keys
  {
    if records == [] then []
    else
      var n := |records| - 1;
      Prepare(s, name, records[..n], at, call) +
      match Serialized(s, records, at, n) case None => [] case Some(text) => [Item(name, n, call, text)]
  }

  function Texts(items: seq<Item>): (t: seq<string>)
    ensures |t| == |items|
  {
    if items == [] then [] else Texts(items[..|items| - 1]) + [items[|items| - 1].text]
  }

  /** The tags apart, these are the entries that the handler's loop builds. */
  lemma {:induction false} PrepareIsSerializeAll(s: Setup, name: string, records: seq<Log>, at: Ingest.Readings, call: nat)
    requires s.key in s.lib.keys
    ensures Texts(Prepare(s, name, records, at, call)) == Ingest.SerializeAll(s.lib, s.lib.keys[s.key], Raw(s, records), at)
  {
    hide Ingest.Serialize;
    if records != [] {
      var n := |records| - 1;
      PrepareIsSerializeAll(s, name, records[..n], at, call);
      assert Raw(s, records)[..n] == Raw(s, records[..n]);
      var before, items := Prepare(s, name, records[..n], at, call), Prepare(s, name, records, at, call);
      if items != before { assert items[..|items| - 1] == before; }
    }
  }

  // ---------------------------------------------------------------- the steps

  function SetPhase(n: Net, k: nat, phase: Phase): Net
    requires k < |n.calls|
  {
    n.(calls := n.calls[k := n.calls[k].(phase := phase)])
  }

  function ToAnswer(r: Ingest.Response): Answer {
    Answered(r.status, if r.busy then Some(5) else None, None)
  }

  function AdmitCall(s: Setup, n: Net, k: nat, lengthOk: bool, at: Ingest.Readings): Net
    requires k < |n.calls|
  {
    var c := n.calls[k];
    var request := Ingest.Request(true, s.key, Ingest.Logs(Raw(s, c.records)));
    match Ingest.Admit(s.lib, request, if lengthOk then Some(n.length) else None)
    case Refused(r) => SetPhase(n, k, Done(ToAnswer(r)))
    case Admitted(_, _) =>
      if s.key in s.lib.keys then
        n.(calls := n.calls[k := c.(phase := Open(Prepare(s, c.name, c.records, at, k)), at := at)])
      else n
  }

  function AppendCall(n: Net, k: nat, outcome: nat -> Ingest.Command, pipelineOk: bool): Net
    requires k < |n.calls| && n.calls[k].phase.Open?
  {
    var c := n.calls[k];
    var items, commands := c.phase.items, Ingest.Outcomes(|c.phase.items|, outcome);
    var rejected: nat := if |items| <= |c.records| then |c.records| - |items| else 0;
    var landing := Ingest.Landed(items, commands);
    SetPhase(n, k, Done(ToAnswer(Ingest.Answer(Texts(items), rejected, commands, pipelineOk))))
      .(length := n.length + |landing|, landed := n.landed + landing)
  }

  function Post(n: Net): Net
    requires n.mode.Holding? && n.mode.claimed in n.disk.directory
  {
    var c := n.mode.claimed;
    n.(calls := n.calls + [Call(WithoutSuffix(c, CLAIM), n.disk.directory[c].records, Sent, _ => (0, 0))],
       mode := Waiting(c, |n.calls|))
  }

  /** The sender has its answer. */
  function Receive(s: Setup, n: Net, now: int, o: Outcome): Net
    requires n.mode.Waiting? && n.mode.call < |n.calls| && n.calls[n.mode.call].phase.Done?
  {
    var c := n.mode.claimed;
    var disposition := Classify(true, n.calls[n.mode.call].phase.answer, now);
    var (d, gone) := Settle(n.disk, s.maxBytes, c, disposition, o);
    n.(disk := d, mode := Idle,
       deliveries := if gone && disposition.Succeeded? && c in n.disk.directory
                     then n.deliveries + [WithoutSuffix(c, CLAIM)] else n.deliveries)
  }

  function Go(s: Setup, n: Net, step: Step): Net {
    match step
    case Writes(records, io) => n.(disk := Publish(n.disk, s.maxBytes, records, io))
    case Claims(stuck) =>
      var (d, c) := ClaimOldest(n.disk, stuck);
      if n.mode != Idle || c == "" then n
      else n.(disk := d, mode := Holding(c), claims := n.claims + [WithoutSuffix(c, CLAIM)])
    case Sends => if n.mode.Holding? && n.mode.claimed in n.disk.directory then Post(n) else n
    case Admits(k, lengthOk, at) => if k < |n.calls| && n.calls[k].phase.Sent? then AdmitCall(s, n, k, lengthOk, at) else n
    case Appends(k, outcome, pipelineOk) =>
      if k < |n.calls| && n.calls[k].phase.Open? then AppendCall(n, k, outcome, pipelineOk) else n
    case Bounces(k, status) =>
      if k < |n.calls| && n.calls[k].phase.Sent? && status != 202 then SetPhase(n, k, Done(Answered(status, None, None))) else n
    case Receives(now, o) =>
      if n.mode.Waiting? && n.mode.call < |n.calls| && n.calls[n.mode.call].phase.Done? then Receive(s, n, now, o) else n
    case GivesUp(renameOk, stuck) =>
      if n.mode == Idle then n
      else n.(disk := Return(n.disk, s.maxBytes, n.mode.claimed, renameOk, stuck).0, mode := Idle)
    case Consumes(count) => n.(length := if count <= n.length then n.length - count else 0)
    case Restarts(stuck, nanos) => n.(disk := RecoverClaims(n.disk, stuck, nanos).0, mode := Idle)
  }

  function GoAll(s: Setup, n: Net, steps: seq<Step>): Net {
    if steps == [] then n else Go(s, GoAll(s, n, steps[..|steps| - 1]), steps[|steps| - 1])
  }

  const START := Net(EMPTY_DISK, Idle, [], 0, [], [], [])

  // ---------------------------------------------------------------- the sender's part

  /** Claiming and posting: the call carries the records of the claimed batch under its name, and
      the sender waits for this very call. */
  lemma PostMeaning(s: Setup, n: Net, stuck: set<string>)
    requires n.mode == Idle
    ensures var (d, c) := ClaimOldest(n.disk, stuck);
            var sent := Go(s, Go(s, n, Claims(stuck)), Sends);
            if c == "" then sent == n
            else
              && sent.disk == d && sent.mode == Waiting(c, |n.calls|) && c in d.directory && |c| >= 8
              && |sent.calls| == |n.calls| + 1 && n.calls <= sent.calls
              && sent.calls[|n.calls|].name == c[..|c| - 8] && sent.calls[|n.calls|].phase == Sent
              && sent.calls[|n.calls|].records == d.directory[c].records
  {
    hide ClaimOldest, EndsWith, WithoutSuffix, ClaimFile;
    var (d, c) := ClaimOldest(n.disk, stuck);
    NoClaimNoChange(n.disk, stuck);
    ClaimedFile(n.disk, stuck);
    if c != "" {
      LongEnough(c);
      ClaimFileMeaning(c);
    }
  }

  /** Whatever happened to the call in between, an answer settles the batch as the same turn of the
      sender's loop does, and giving up is the turn without an answer; the sender is free again. */
  lemma RoundIsTurn(s: Setup, n: Net, m: Net, stuck: set<string>, now: int, o: Outcome, g: Senders.Progress)
    requires var (d, c) := ClaimOldest(n.disk, stuck);
             c != "" && m.disk == d && m.mode.Waiting? && m.mode.claimed == c && m.mode.call < |m.calls|
    requires g.disk == n.disk
    ensures m.calls[m.mode.call].phase.Done? ==>
              var r := Go(s, m, Receives(now, o));
              var t := Turn(true, stuck, true, m.calls[m.mode.call].phase.answer, now, o);
              r.mode == Idle && r.calls == m.calls && r.disk == Take(g, s.maxBytes, t).disk
    ensures var r := Go(s, m, GivesUp(o.renameOk, o.stuck));
            r.mode == Idle && r.calls == m.calls
            && r.disk == Take(g, s.maxBytes, Turn(true, stuck, true, NoAnswer, now, o)).disk
  {
    hide ClaimOldest, DeleteClaim, MoveToFailed, Return, RetryAfter, WithoutSuffix;
  }

  // ---------------------------------------------------------------- a call is a request

  lemma {:induction false} TextsLanded(items: seq<Item>, commands: seq<Ingest.Command>)
    requires |commands| == |items|
    ensures Texts(Ingest.Landed(items, commands)) == Ingest.Landed(Texts(items), commands)
  {
    if items != [] {
      var n := |items| - 1;
      TextsLanded(items[..n], commands[..n]);
      assert Texts(items) == Texts(items[..n]) + [items[n].text];
      assert Texts(items)[..n] == Texts(items[..n]);
      var before := Ingest.Landed(items[..n], commands[..n]);
      if commands[n] == Ingest.NotLanded {
        assert before + [] == before && Texts(before) + [] == Texts(before);
      } else {
        assert (before + [items[n]])[..|before|] == before;
      }
    }
  }

  /** Admitted and appended without interruption, a call is answered as the handler answers
      the request, and lands what the handler appends. */
  lemma CallIsHandle(s: Setup, n: Net, k: nat, entries: seq<string>, at: Ingest.Readings,
                     outcome: nat -> Ingest.Command, pipelineOk: bool)
    requires k < |n.calls| && n.calls[k].phase.Sent? && n.length == |entries|
    ensures var request := Ingest.Request(true, s.key, Ingest.Logs(Raw(s, n.calls[k].records)));
            var (after, r) := Ingest.Handle(s.lib, entries, request, true, at, outcome, pipelineOk);
            var admitted := AdmitCall(s, n, k, true, at);
            var phase := admitted.calls[k].phase;
            if phase.Open? then
              var m := AppendCall(admitted, k, outcome, pipelineOk);
              && m.calls[k].phase == Done(ToAnswer(r)) && m.length == |after|
              && after == entries + Texts(Ingest.Landed(phase.items, Ingest.Outcomes(|phase.items|, outcome)))
            else phase == Done(ToAnswer(r)) && after == entries
  {
    hide Ingest.Landed, Ingest.Answer, Ingest.SerializeAll, Prepare, Texts;
    var c := n.calls[k];
    var phase := AdmitCall(s, n, k, true, at).calls[k].phase;
    if phase.Open? {
      PrepareIsSerializeAll(s, c.name, c.records, at, k);
      Ingest.SerializedAtMost(s.lib, s.lib.keys[s.key], Raw(s, c.records), at);
      TextsLanded(phase.items, Ingest.Outcomes(|phase.items|, outcome));
    }
  }

  /** A call that finds the stream full is answered with a 429 that makes its sender pause for five seconds. */
  lemma FullStreamWaits(s: Setup, n: Net, k: nat, at: Ingest.Readings, now: int)
    requires k < |n.calls| && s.key in s.lib.keys && n.length > 1_000_000
    ensures var phase := AdmitCall(s, n, k, true, at).calls[k].phase;
            phase == Done(Answered(429, Some(5), None)) && Asks(phase.answer, now) == Some(5_000_000_000)
  {
  }

  // ---------------------------------------------------------------- what a 202 means

  /** Each record of call `k` was appended by that call, or was rejected. */
  ghost predicate Arrived(s: Setup, c: Call, k: nat, landed: seq<Item>) {
    && s.key in s.lib.keys
    && forall i: nat | i < |c.records| :: RecordArrived(s, c, k, landed, i)
  }

  /** Record `i` of call `k` was rejected, or that call appended what becomes of it. */
  ghost predicate RecordArrived(s: Setup, c: Call, k: nat, landed: seq<Item>, i: nat)
    requires i < |c.records| && s.key in s.lib.keys
  {
    var id, raw := s.lib.keys[s.key], s.wire(c.records[i]);
    || Ingest.Rejected(s.lib, id, raw, c.at(i))
    || exists text :: Ingest.Encodes(s.lib, id, raw, c.at(i), text) && Item(c.name, i, k, text) in landed
  }

  ghost predicate CallOk(s: Setup, n: Net, k: nat)
    requires k < |n.calls|
  {
    var c := n.calls[k];
    && (c.phase.Open? ==> s.key in s.lib.keys && c.phase.items == Prepare(s, c.name, c.records, c.at, k))
    && (c.phase.Done? && c.phase.answer.Answered? && c.phase.answer.status == 202 ==> Arrived(s, c, k, n.landed))
  }

  const ACCEPTED := {202}
  const REFUSED := {400, 413}

  /** Call `k` carried the batch `b` named `name` and was answered with one of `statuses`. */
  predicate Carried(n: Net, k: nat, name: string, b: Batch, statuses: set<int>) {
    && k < |n.calls| && n.calls[k].name == name && n.calls[k].records == b.records
    && n.calls[k].phase.Done? && n.calls[k].phase.answer.Answered? && n.calls[k].phase.answer.status in statuses
  }

  /** Some such call stands behind every batch in `place`. */
  ghost predicate Vouched(n: Net, place: Directory, statuses: set<int>) {
    forall name | name in place :: exists k: nat :: Carried(n, k, name, place[name], statuses)
  }

  /** The sender's claim is well named, and what it is waiting for is what it posted. */
  predicate ModeOk(n: Net) {
    && (n.mode != Idle ==> EndsWith(n.mode.claimed, CLAIMED))
    && (n.mode.Waiting? ==>
          && n.mode.call < |n.calls| && n.calls[n.mode.call].name == WithoutSuffix(n.mode.claimed, CLAIM)
          && (n.mode.claimed in n.disk.directory ==>
                n.disk.directory[n.mode.claimed].records == n.calls[n.mode.call].records))
  }

  ghost predicate NetOk(s: Setup, n: Net) {
    && ModeOk(n)
    && (forall k: nat | k < |n.calls| :: CallOk(s, n, k))
    && Vouched(n, n.disk.delivered, ACCEPTED) && Vouched(n, n.disk.failed, REFUSED)
  }

  lemma {:induction false} PrepareHas(s: Setup, name: string, records: seq<Log>, at: Ingest.Readings, call: nat, i: nat)
    requires s.key in s.lib.keys && i < |records|
    ensures var text := Serialized(s, records, at, i);
            text.Some? ==> Item(name, i, call, text.value) in Prepare(s, name, records, at, call)
  {
    hide Ingest.Serialize;
    var n := |records| - 1;
    if i < n {
      PrepareHas(s, name, records[..n], at, call, i);
      assert Serialized(s, records[..n], at, i) == Serialized(s, records, at, i);
    }
  }

  /** Histories only grow, so what has arrived stays arrived. */
  lemma ArrivedMore(s: Setup, c: Call, k: nat, landed: seq<Item>, more: seq<Item>)
    requires Arrived(s, c, k, landed)
    ensures Arrived(s, c, k, landed + more)
  {
    hide Ingest.Encodes, Ingest.Rejected;
    forall i: nat | i < |c.records| ensures RecordArrived(s, c, k, landed + more, i) {
      assert RecordArrived(s, c, k, landed, i);
    }
  }

  /** A 202 means that everything arrived. */
  lemma AppendArrives(s: Setup, n: Net, k: nat, outcome: nat -> Ingest.Command, pipelineOk: bool)
    requires k < |n.calls| && n.calls[k].phase.Open? && CallOk(s, n, k)
    ensures CallOk(s, AppendCall(n, k, outcome, pipelineOk), k)
  {
    hide Ingest.Serialize, Prepare, Ingest.Encodes, Ingest.Rejected;
    var c := n.calls[k];
    var items, commands := c.phase.items, Ingest.Outcomes(|c.phase.items|, outcome);
    var rejected: nat := if |items| <= |c.records| then |c.records| - |items| else 0;
    Ingest.AcceptedLanded(Texts(items), rejected, commands, pipelineOk);
    var m := AppendCall(n, k, outcome, pipelineOk);
    if m.calls[k].phase.answer.status == 202 {
      if items == [] {
        assert Ingest.Landed(items, commands) == items;
      } else {
        Ingest.AllLanded(items, commands);
      }
      hide Ingest.Landed;
      forall i: nat | i < |c.records| ensures RecordArrived(s, m.calls[k], k, m.landed, i) {
        PrepareHas(s, c.name, c.records, c.at, k, i);
        Ingest.SerializeMeaning(s.lib, s.lib.keys[s.key], s.wire(c.records[i]), c.at(i));
      }
    }
  }

  // ---------------------------------------------------------------- every step keeps it

  /** What stands behind a batch stays: calls that are over do not change. */
  lemma StillVouched(n: Net, m: Net, place: Directory, statuses: set<int>)
    requires Vouched(n, place, statuses) && |n.calls| <= |m.calls|
    requires forall j: nat | j < |n.calls| && n.calls[j].phase.Done? :: m.calls[j] == n.calls[j]
    ensures Vouched(m, place, statuses)
  {
    forall name | name in place ensures exists k: nat :: Carried(m, k, name, place[name], statuses) {
      var k: nat :| Carried(n, k, name, place[name], statuses);
      assert Carried(m, k, name, place[name], statuses);
    }
  }

  /** One call moves on, and nothing else but the landed entries. */
  lemma CallMoves(s: Setup, n: Net, m: Net, k: nat, more: seq<Item>)
    requires NetOk(s, n) && k < |n.calls| && !n.calls[k].phase.Done?
    requires m.disk == n.disk && m.mode == n.mode && |m.calls| == |n.calls| && m.landed == n.landed + more
    requires forall j: nat | j < |n.calls| && j != k :: m.calls[j] == n.calls[j]
    requires m.calls[k].name == n.calls[k].name && m.calls[k].records == n.calls[k].records && CallOk(s, m, k)
    ensures NetOk(s, m)
  {
    hide Arrived, Prepare, EndsWith, WithoutSuffix, Vouched;
    forall j: nat | j < |m.calls| ensures CallOk(s, m, j) {
      if j != k {
        assert CallOk(s, n, j);
        if Arrived(s, n.calls[j], j, n.landed) { ArrivedMore(s, n.calls[j], j, n.landed, more); }
      }
    }
    StillVouched(n, m, n.disk.delivered, ACCEPTED);
    StillVouched(n, m, n.disk.failed, REFUSED);
  }

  /** The disk changes, but neither a claimed file nor what was delivered or quarantined. */
  lemma DiskMoves(s: Setup, n: Net, m: Net)
    requires NetOk(s, n) && m.calls == n.calls && m.landed == n.landed && ModeOk(m)
    requires m.disk.delivered == n.disk.delivered && m.disk.failed == n.disk.failed
    ensures NetOk(s, m)
  {
    hide Arrived, Prepare, ModeOk, Vouched;
    forall k: nat | k < |m.calls| ensures CallOk(s, m, k) { assert CallOk(s, n, k); }
    StillVouched(n, m, n.disk.delivered, ACCEPTED);
    StillVouched(n, m, n.disk.failed, REFUSED);
  }

  lemma PublishKeeps(d: Disk, maxBytes: int, records: seq<Log>, io: WriteIO, c: string)
    requires EndsWith(c, CLAIMED)
    ensures var e := Publish(d, maxBytes, records, io);
            e.delivered == d.delivered && e.failed == d.failed && (c in e.directory ==> c in d.directory && e.directory[c] == d.directory[c])
  {
    hide VictimSet, NewBatchName;
    if io.WriteDone? {
      ClaimedName(c);
      NewNameEnds(io);
      ClaimName(WithoutSuffix(c, CLAIM));
      hide EndsWith, WithoutSuffix;
      assert NewBatchName(io.now, io.random) != c;
    }
  }

  lemma ReturnDelivers(d: Disk, maxBytes: int, c: string, renameOk: bool, stuck: set<string>)
    ensures var e := Return(d, maxBytes, c, renameOk, stuck).0; e.delivered == d.delivered && e.failed == d.failed
  {
    hide EndsWith, WithoutSuffix, VictimSet;
  }

  lemma ClaimNames(d: Disk, stuck: set<string>)
    ensures var (e, c) := ClaimOldest(d, stuck);
            e.delivered == d.delivered && e.failed == d.failed && (c != "" ==> EndsWith(c, CLAIMED))
  {
    FirstClaimableListed(d, stuck);
    var n := FirstClaimable(Listing(d.directory), stuck);
    if n != "" { ClaimName(n); }
    hide EndsWith, Listing, FirstClaimable;
  }

  lemma WritesOk(s: Setup, n: Net, records: seq<Log>, io: WriteIO)
    requires NetOk(s, n)
    ensures NetOk(s, n.(disk := Publish(n.disk, s.maxBytes, records, io)))
  {
    var m := n.(disk := Publish(n.disk, s.maxBytes, records, io));
    hide Publish, CallOk, Vouched, EndsWith, WithoutSuffix;
    if n.mode != Idle {
      PublishKeeps(n.disk, s.maxBytes, records, io, n.mode.claimed);
    } else {
      PublishDelivers(n.disk, s.maxBytes, records, io);
    }
    DiskMoves(s, n, m);
  }

  lemma PublishDelivers(d: Disk, maxBytes: int, records: seq<Log>, io: WriteIO)
    ensures var e := Publish(d, maxBytes, records, io); e.delivered == d.delivered && e.failed == d.failed
  {
    hide VictimSet, NewBatchName;
  }

  lemma PostOk(s: Setup, n: Net)
    requires NetOk(s, n) && n.mode.Holding? && n.mode.claimed in n.disk.directory
    ensures NetOk(s, Post(n))
  {
    var m := Post(n);
    hide Arrived, Prepare, EndsWith, WithoutSuffix;
    forall k: nat | k < |m.calls| ensures CallOk(s, m, k) {
      if k < |n.calls| { assert CallOk(s, n, k); }
    }
    StillVouched(n, m, n.disk.delivered, ACCEPTED);
    StillVouched(n, m, n.disk.failed, REFUSED);
  }

  lemma AdmitOk(s: Setup, n: Net, k: nat, lengthOk: bool, at: Ingest.Readings)
    requires NetOk(s, n) && k < |n.calls| && n.calls[k].phase.Sent?
    ensures NetOk(s, AdmitCall(s, n, k, lengthOk, at))
  {
    var m := AdmitCall(s, n, k, lengthOk, at);
    hide Arrived, Prepare, NetOk;
    assert m.landed == n.landed + [];
    CallMoves(s, n, m, k, []);
  }

  lemma AppendOk(s: Setup, n: Net, k: nat, outcome: nat -> Ingest.Command, pipelineOk: bool)
    requires NetOk(s, n) && k < |n.calls| && n.calls[k].phase.Open?
    ensures NetOk(s, AppendCall(n, k, outcome, pipelineOk))
  {
    assert CallOk(s, n, k);
    AppendArrives(s, n, k, outcome, pipelineOk);
    hide NetOk, CallOk, Ingest.Landed, Ingest.Answer, Texts;
    var c := n.calls[k];
    CallMoves(s, n, AppendCall(n, k, outcome, pipelineOk), k,
              Ingest.Landed(c.phase.items, Ingest.Outcomes(|c.phase.items|, outcome)));
  }

  /** Settling adds the claimed batch to what was delivered only after a 202, to what was
      quarantined only after a 400 or 413, and changes neither in any other way. */
  lemma SettleBooks(d: Disk, maxBytes: int, c: string, answer: Answer, now: int, o: Outcome)
    ensures var e := Settle(d, maxBytes, c, Classify(true, answer, now), o).0;
            && Joined(d.delivered, e.delivered, d.directory, c, answer, ACCEPTED)
            && Joined(d.failed, e.failed, d.directory, c, answer, REFUSED)
  {
    hide EndsWith, VictimSet, RetryAfter;
    var n := WithoutSuffix(c, CLAIM);
    if c in d.directory {
      assert d.delivered[n := d.directory[c]] == d.delivered + map[n := d.directory[c]];
      assert d.failed[n := d.directory[c]] == d.failed + map[n := d.directory[c]];
    }
  }

  /** A place is as before, or the claimed batch has joined it upon one of `statuses`. */
  predicate Joined(before: Directory, after: Directory, directory: Directory, c: string, answer: Answer, statuses: set<int>) {
    || after == before
    || (answer.Answered? && answer.status in statuses && c in directory
        && after == before + map[WithoutSuffix(c, CLAIM) := directory[c]])
  }

  /** The batch that call `k` carried joins a place it vouches for. */
  lemma VouchedMore(n: Net, m: Net, place: Directory, k: nat, name: string, b: Batch, statuses: set<int>)
    requires Vouched(n, place, statuses) && m.calls == n.calls && Carried(n, k, name, b, statuses)
    ensures Vouched(m, place + map[name := b], statuses)
  {
    StillVouched(n, m, place, statuses);
    var more := place + map[name := b];
    forall x | x in more ensures exists j: nat :: Carried(m, j, x, more[x], statuses) {
      if x == name {
        assert Carried(m, k, x, more[x], statuses);
      } else {
        var j: nat :| Carried(m, j, x, place[x], statuses);
        assert Carried(m, j, x, more[x], statuses);
      }
    }
  }

  lemma PlaceOk(n: Net, m: Net, before: Directory, after: Directory, statuses: set<int>)
    requires ModeOk(n) && n.mode.Waiting? && n.calls[n.mode.call].phase.Done? && m.calls == n.calls
    requires Vouched(n, before, statuses)
    requires Joined(before, after, n.disk.directory, n.mode.claimed, n.calls[n.mode.call].phase.answer, statuses)
    ensures Vouched(m, after, statuses)
  {
    hide Vouched, EndsWith, WithoutSuffix;
    if after == before {
      StillVouched(n, m, before, statuses);
    } else {
      var name, b := WithoutSuffix(n.mode.claimed, CLAIM), n.disk.directory[n.mode.claimed];
      VouchedMore(n, m, before, n.mode.call, name, b, statuses);
    }
  }

  lemma ReceiveOk(s: Setup, n: Net, now: int, o: Outcome)
    requires NetOk(s, n) && n.mode.Waiting? && n.mode.call < |n.calls| && n.calls[n.mode.call].phase.Done?
    ensures NetOk(s, Receive(s, n, now, o))
  {
    var c, k := n.mode.claimed, n.mode.call;
    var answer := n.calls[k].phase.answer;
    var m := Receive(s, n, now, o);
    SettleBooks(n.disk, s.maxBytes, c, answer, now, o);
    hide Settle, Classify, Arrived, Prepare, EndsWith, WithoutSuffix, Vouched, Joined;
    forall j: nat | j < |m.calls| ensures CallOk(s, m, j) { assert CallOk(s, n, j); }
    PlaceOk(n, m, n.disk.delivered, m.disk.delivered, ACCEPTED);
    PlaceOk(n, m, n.disk.failed, m.disk.failed, REFUSED);
  }

  lemma GoOk(s: Setup, n: Net, step: Step)
    requires NetOk(s, n)
    ensures NetOk(s, Go(s, n, step))
  {
    hide NetOk, Publish, ClaimOldest, AdmitCall, AppendCall, Receive, Return, RecoverAll, CallOk;
    assert ModeOk(n) by { NetMode(s, n); }
    match step
    case Writes(records, io) => WritesOk(s, n, records, io);
    case Claims(stuck) =>
      ClaimNames(n.disk, stuck);
      DiskMoves(s, n, Go(s, n, step));
    case Sends => if n.mode.Holding? && n.mode.claimed in n.disk.directory { PostOk(s, n); }
    case Admits(k, lengthOk, at) => if k < |n.calls| && n.calls[k].phase.Sent? { AdmitOk(s, n, k, lengthOk, at); }
    case Appends(k, outcome, pipelineOk) => if k < |n.calls| && n.calls[k].phase.Open? { AppendOk(s, n, k, outcome, pipelineOk); }
    case Bounces(k, status) =>
      if k < |n.calls| && n.calls[k].phase.Sent? && status != 202 { BounceOk(s, n, k, status); }
    case Receives(now, o) =>
      if n.mode.Waiting? && n.mode.call < |n.calls| && n.calls[n.mode.call].phase.Done? { ReceiveOk(s, n, now, o); }
    case GivesUp(renameOk, stuck) =>
      if n.mode != Idle { ReturnDelivers(n.disk, s.maxBytes, n.mode.claimed, renameOk, stuck); }
      DiskMoves(s, n, Go(s, n, step));
    case Consumes(count) => DiskMoves(s, n, Go(s, n, step));
    case Restarts(stuck, nanos) =>
      RecoverHistory(n.disk, BatchStores.Claims(n.disk.directory), stuck, nanos);
      DiskMoves(s, n, Go(s, n, step));
  }

  lemma NetMode(s: Setup, n: Net)
    requires NetOk(s, n)
    ensures ModeOk(n)
  {
  }

  lemma BounceOk(s: Setup, n: Net, k: nat, status: int)
    requires NetOk(s, n) && k < |n.calls| && n.calls[k].phase.Sent? && status != 202
    ensures NetOk(s, SetPhase(n, k, Done(Answered(status, None, None))))
  {
    hide NetOk;
    var m := SetPhase(n, k, Done(Answered(status, None, None)));
    assert m.landed == n.landed + [];
    CallMoves(s, n, m, k, []);
  }

  lemma {:induction false} RunOk(s: Setup, steps: seq<Step>)
    ensures NetOk(s, GoAll(s, START, steps))
  {
    hide Go;
    if steps != [] {
      hide NetOk;
      RunOk(s, steps[..|steps| - 1]);
      GoOk(s, GoAll(s, START, steps[..|steps| - 1]), steps[|steps| - 1]);
    }
  }

  /** Delivery safety over every run: a batch counts as delivered only if some call carried it,
      with its very records, and was answered with 202, and each of those records was rejected, or
      that call appended to the stream what becomes of it: normalized, redacted and stamped. */
  lemma DeliveredMeansArrived(s: Setup, steps: seq<Step>, name: string) returns (k: nat)
    requires name in GoAll(s, START, steps).disk.delivered
    ensures var n := GoAll(s, START, steps);
            && Carried(n, k, name, n.disk.delivered[name], ACCEPTED) && s.key in s.lib.keys
            && forall i: nat | i < |n.disk.delivered[name].records| :: RecordArrived(s, n.calls[k], k, n.landed, i)
  {
    RunOk(s, steps);
    var n := GoAll(s, START, steps);
    hide GoAll, RecordArrived;
    k :| Carried(n, k, name, n.disk.delivered[name], ACCEPTED);
    assert CallOk(s, n, k);
  }

  /** Quarantine is as safe: a batch is set aside only if some call carried its very records and
      was answered with 400 or 413. */
  lemma QuarantinedMeansRefused(s: Setup, steps: seq<Step>, name: string) returns (k: nat)
    requires name in GoAll(s, START, steps).disk.failed
    ensures var n := GoAll(s, START, steps); Carried(n, k, name, n.disk.failed[name], REFUSED)
  {
    RunOk(s, steps);
    var n := GoAll(s, START, steps);
    hide GoAll;
    k :| Carried(n, k, name, n.disk.failed[name], REFUSED);
  }

  // ---------------------------------------------------------------- copies

  function Copies(items: seq<Item>, name: string, index: nat): nat {
    if items == [] then 0
    else
      var last := items[|items| - 1];
      Copies(items[..|items| - 1], name, index) + (if last.name == name && last.index == index then 1 else 0)
  }

  /** How often the batch was posted, and how many of these calls are over. */
  function Attempts(calls: seq<Call>, name: string): nat {
    if calls == [] then 0
    else Attempts(calls[..|calls| - 1], name) + (if calls[|calls| - 1].name == name then 1 else 0)
  }

  function Over(c: Call, name: string): nat {
    if c.name == name && c.phase.Done? then 1 else 0
  }

  function Finished(calls: seq<Call>, name: string): nat {
    if calls == [] then 0 else Finished(calls[..|calls| - 1], name) + Over(calls[|calls| - 1], name)
  }

  lemma {:induction false} FinishedAtMost(calls: seq<Call>, name: string)
    ensures Finished(calls, name) <= Attempts(calls, name)
  {
    if calls != [] { FinishedAtMost(calls[..|calls| - 1], name); }
  }

  lemma {:induction false} FinishedUpdate(calls: seq<Call>, k: nat, c: Call, name: string)
    requires k < |calls|
    ensures Finished(calls[k := c], name) + Over(calls[k], name) == Finished(calls, name) + Over(c, name)
  {
    var n := |calls| - 1;
    if k < n {
      FinishedUpdate(calls[..n], k, c, name);
      assert calls[k := c][..n] == calls[..n][k := c];
    } else {
      assert calls[k := c][..n] == calls[..n];
    }
  }

  lemma {:induction false} CopiesAdd(a: seq<Item>, b: seq<Item>, name: string, index: nat)
    ensures Copies(a + b, name, index) == Copies(a, name, index) + Copies(b, name, index)
  {
    if b == [] {
      assert a + b == a;
    } else {
      assert (a + b)[..|a + b| - 1] == a + b[..|b| - 1];
      CopiesAdd(a, b[..|b| - 1], name, index);
    }
  }

  lemma {:induction false} LandedCopies(items: seq<Item>, commands: seq<Ingest.Command>, name: string, index: nat)
    requires |commands| == |items|
    ensures Copies(Ingest.Landed(items, commands), name, index) <= Copies(items, name, index)
  {
    if items != [] {
      var n := |items| - 1;
      LandedCopies(items[..n], commands[..n], name, index);
      CopiesAdd(Ingest.Landed(items[..n], commands[..n]), [items[n]], name, index);
      assert [items[n]][..0] == [];
      assert Ingest.Landed(items[..n], commands[..n]) + [] == Ingest.Landed(items[..n], commands[..n]);
    }
  }

  lemma {:induction false} PrepareOnce(s: Setup, name: string, records: seq<Log>, at: Ingest.Readings, call: nat,
                                       m: string, index: nat)
    requires s.key in s.lib.keys
    ensures Copies(Prepare(s, name, records, at, call), m, index) <= if m == name && index < |records| then 1 else 0
  {
    hide Ingest.Serialize;
    if records != [] {
      var n := |records| - 1;
      var before := Prepare(s, name, records[..n], at, call);
      PrepareOnce(s, name, records[..n], at, call, m, index);
      var text := Serialized(s, records, at, n);
      if text.Some? {
        var item := Item(name, n, call, text.value);
        assert Prepare(s, name, records, at, call) == before + [item];
        CopiesAdd(before, [item], m, index);
        assert [item][..0] == [];
      } else {
        assert before + [] == before;
      }
    }
  }

  /** No record has more copies than its batch has finished calls. */
  ghost predicate FewCopies(n: Net) {
    forall name, index: nat :: Copies(n.landed, name, index) <= Finished(n.calls, name)
  }

  lemma CallCopies(n: Net, m: Net, k: nat)
    requires FewCopies(n) && k < |n.calls| == |m.calls| && !n.calls[k].phase.Done? && m.landed == n.landed
    requires m.calls == n.calls[k := m.calls[k]] && m.calls[k].name == n.calls[k].name
    ensures FewCopies(m)
  {
    forall name, index: nat ensures Copies(m.landed, name, index) <= Finished(m.calls, name) {
      FinishedUpdate(n.calls, k, m.calls[k], name);
      hide Finished, Copies;
    }
  }

  lemma AppendCopies(s: Setup, n: Net, k: nat, outcome: nat -> Ingest.Command, pipelineOk: bool)
    requires FewCopies(n) && k < |n.calls| && n.calls[k].phase.Open? && CallOk(s, n, k)
    ensures FewCopies(AppendCall(n, k, outcome, pipelineOk))
  {
    var c := n.calls[k];
    var m := AppendCall(n, k, outcome, pipelineOk);
    var commands := Ingest.Outcomes(|c.phase.items|, outcome);
    hide Ingest.Answer, Texts, Prepare, Copies, Finished, Ingest.Landed;
    forall name, index: nat ensures Copies(m.landed, name, index) <= Finished(m.calls, name) {
      FinishedUpdate(n.calls, k, m.calls[k], name);
      CopiesAdd(n.landed, Ingest.Landed(c.phase.items, commands), name, index);
      LandedCopies(c.phase.items, commands, name, index);
      PrepareOnce(s, c.name, c.records, c.at, k, name, index);
      assert Copies(n.landed, name, index) <= Finished(n.calls, name);
    }
  }

  lemma PostCopies(n: Net)
    requires FewCopies(n) && n.mode.Holding? && n.mode.claimed in n.disk.directory
    ensures FewCopies(Post(n))
  {
    forall name, index: nat ensures Copies(Post(n).landed, name, index) <= Finished(Post(n).calls, name) {
      assert Post(n).calls[..|n.calls|] == n.calls;
      assert Copies(n.landed, name, index) <= Finished(n.calls, name);
    }
  }

  lemma AdmitCopies(s: Setup, n: Net, k: nat, lengthOk: bool, at: Ingest.Readings)
    requires FewCopies(n) && k < |n.calls| && n.calls[k].phase.Sent?
    ensures FewCopies(AdmitCall(s, n, k, lengthOk, at))
  {
    hide FewCopies, Prepare, Ingest.Admit;
    var m := AdmitCall(s, n, k, lengthOk, at);
    if m != n { CallCopies(n, m, k); }
  }

  lemma GoCopies(s: Setup, n: Net, step: Step)
    requires NetOk(s, n) && FewCopies(n)
    ensures FewCopies(Go(s, n, step))
  {
    hide Publish, ClaimOldest, AdmitCall, AppendCall, Settle, Return, RecoverAll, CallOk, Copies, Finished, Post;
    match step
    case Sends => if n.mode.Holding? && n.mode.claimed in n.disk.directory { PostCopies(n); }
    case Admits(k, lengthOk, at) => if k < |n.calls| && n.calls[k].phase.Sent? { AdmitCopies(s, n, k, lengthOk, at); }
    case Appends(k, outcome, pipelineOk) =>
      if k < |n.calls| && n.calls[k].phase.Open? { AppendCopies(s, n, k, outcome, pipelineOk); }
    case Bounces(k, status) =>
      if k < |n.calls| && n.calls[k].phase.Sent? && status != 202 { CallCopies(n, Go(s, n, step), k); }
    case _ =>
  }

  lemma {:induction false} RunCopies(s: Setup, steps: seq<Step>)
    ensures FewCopies(GoAll(s, START, steps))
  {
    hide Go;
    if steps != [] {
      hide FewCopies;
      RunOk(s, steps[..|steps| - 1]);
      RunCopies(s, steps[..|steps| - 1]);
      GoCopies(s, GoAll(s, START, steps[..|steps| - 1]), steps[|steps| - 1]);
    }
  }

  /** The calls that carried a batch, and the landed entries of one of its records. */
  function Posts(calls: seq<Call>, name: string): set<nat> {
    set i: nat | i < |calls| && calls[i].name == name
  }

  function Entries(items: seq<Item>, name: string, index: nat): set<nat> {
    set i: nat | i < |items| && items[i].name == name && items[i].index == index
  }

  lemma PostsMore(calls: seq<Call>, name: string)
    requires calls != []
    ensures var n := |calls| - 1;
            && Posts(calls, name) == (if calls[n].name == name then Posts(calls[..n], name) + {n} else Posts(calls[..n], name))
            && n !in Posts(calls[..n], name)
  {
  }

  lemma {:induction false} AttemptsMeaning(calls: seq<Call>, name: string)
    ensures Attempts(calls, name) == |Posts(calls, name)|
  {
    if calls != [] {
      PostsMore(calls, name);
      hide Posts;
      AttemptsMeaning(calls[..|calls| - 1], name);
    }
  }

  lemma EntriesMore(items: seq<Item>, name: string, index: nat)
    requires items != []
    ensures var n := |items| - 1;
            && Entries(items, name, index)
            == (if items[n].name == name && items[n].index == index then Entries(items[..n], name, index) + {n}
                else Entries(items[..n], name, index))
            && n !in Entries(items[..n], name, index)
  {
  }

  lemma {:induction false} CopiesMeaning(items: seq<Item>, name: string, index: nat)
    ensures Copies(items, name, index) == |Entries(items, name, index)|
  {
    if items != [] {
      EntriesMore(items, name, index);
      hide Entries;
      CopiesMeaning(items[..|items| - 1], name, index);
    }
  }

  /** In every run each record of a batch is in the stream's history at most once for every
      time the batch was posted. */
  lemma CopiesWithinAttempts(s: Setup, steps: seq<Step>, name: string, index: nat)
    ensures var n := GoAll(s, START, steps);
            |Entries(n.landed, name, index)| <= |Posts(n.calls, name)|
  {
    RunCopies(s, steps);
    var n := GoAll(s, START, steps);
    hide GoAll, Copies, Finished, Attempts;
    FinishedAtMost(n.calls, name);
    AttemptsMeaning(n.calls, name);
    CopiesMeaning(n.landed, name, index);
    assert Copies(n.landed, name, index) <= Finished(n.calls, name);
  }
}
