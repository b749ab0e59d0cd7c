/**
 The ingest service: one request is admitted or refused, its logs are decoded,
 normalized, redacted and encoded one by one, and what survives is appended to
 the stream by a pipeline of commands that can succeed only in part.

 Decoding, encoding, authentication data and clock readings are parameters.
 */
module Ingest {
  import opened Tailing
  import opened Schema
  import opened Processing
  import opened Text
  import Cards

  const MAX_BATCH_SIZE := 10_000
  const MAX_STREAM_ENTRIES := 1_000_000

  datatype Identity = Identity(service: string, retentionDays: nat)

  datatype Library = Library(
    keys: map<string, Identity>, settings: Settings,
    decode: string -> Option<Log>, encode: Log -> Option<string>)

  /** The body as it is read: refused with a status, not a JSON array, or an array of raw logs. */
  datatype Body = BodyRefused(status: int) | NotAnArray | Logs(raw: seq<string>)

  datatype Request = Request(isPost: bool, apiKey: string, body: Body)

  /** `busy` says that a Retry-After header is sent. */
  datatype Response = Response(status: int, accepted: nat, rejected: nat, busy: bool)

  /** The two clock readings taken for each raw log. */
  type Readings = nat -> (int, int)

  // ---------------------------------------------------------------- one log

  /** The stream entry of one raw log, or nothing when it is rejected. */
  function Serialize(lib: Library, id: Identity, raw: string, at: (int, int)): Option<string> {
    match lib.decode(raw)
    case None => None
    case Some(log) =>
      match Normalize(log.(service := id.service, retentionDays := id.retentionDays), at.0)
      case Err(_) => None
      case Ok(normalized) => lib.encode(Redacted(lib.settings, normalized).(ingestedAt := Millis(at.1)))
  }

  /** Which of the first `n` raw logs are kept, and as what. */
  function SerializeAll(lib: Library, id: Identity, raw: seq<string>, at: Readings): seq<string> {
    if raw == [] then []
    else
      var n := |raw| - 1;
      SerializeAll(lib, id, raw[..n], at) +
      match Serialize(lib, id, raw[n], at(n)) case None => [] case Some(text) => [text]
  }

  lemma {:induction false} SerializedAtMost(lib: Library, id: Identity, raw: seq<string>, at: Readings)
    ensures |SerializeAll(lib, id, raw, at)| <= |raw|
  {
    if raw != [] { SerializedAtMost(lib, id, raw[..|raw| - 1], at); }
  }

  /** `r` is what becomes of a decoded log under an identity, with the two readings of the clock:
      service and retention are the identity's, the fields are normalized at the first reading,
      the message and the values are redacted, and the time of arrival is the second reading. */
  ghost predicate Arrived(lib: Library, id: Identity, log: Log, at: (int, int), r: Log) {
    var plain := NormalizedFields(log.(service := id.service, retentionDays := id.retentionDays), at.0);
    && r.service == id.service && r.retentionDays == id.retentionDays
    && r.host == log.host && r.env == log.env && r.traceId == log.traceId
    && r.level == NormalizeLevel(log.level) && r.timestamp == plain.timestamp
    && r.ingestedAt == at.1 - at.1 % 1_000_000
    && r.message == Cards.Redacted(lib.settings.otherRules(Truncated(log.message, 16_384)))
    && r.attributes.Keys == plain.attributes.Keys
    && (forall k | k in plain.attributes :: Masking(lib.settings, k, plain.attributes[k], r.attributes[k]))
    && (r.redacted <==>
          log.redacted || r.message != Truncated(log.message, 16_384)
          || exists k :: k in plain.attributes && plain.attributes[k] != r.attributes[k])
  }

  /** A field that every log must have is missing. */
  ghost predicate Incomplete(id: Identity, log: Log) {
    || Blank(id.service) || Blank(log.host) || Blank(log.env) || Blank(log.message) || id.retentionDays == 0
  }

  /** `text` encodes what becomes of the raw log. */
  ghost predicate Encodes(lib: Library, id: Identity, raw: string, at: (int, int), text: string) {
    exists log, r ::
      && lib.decode(raw) == Some(log) && !Incomplete(id, log)
      && Arrived(lib, id, log, at, r) && lib.encode(r) == Some(text)
  }

  /** The raw log cannot be decoded, or misses a required field, or cannot be encoded. */
  ghost predicate Rejected(lib: Library, id: Identity, raw: string, at: (int, int)) {
    match lib.decode(raw)
    case None => true
    case Some(log) => Incomplete(id, log) || exists r :: Arrived(lib, id, log, at, r) && lib.encode(r) == None
  }

  lemma ArrivedOnly(lib: Library, id: Identity, log: Log, at: (int, int), r: Log)
    ensures var plain := NormalizedFields(log.(service := id.service, retentionDays := id.retentionDays), at.0);
            Arrived(lib, id, log, at, r) <==> r == Redacted(lib.settings, plain).(ingestedAt := Millis(at.1))
  {
    var plain := NormalizedFields(log.(service := id.service, retentionDays := id.retentionDays), at.0);
    NormalizedMeaning(log.(service := id.service, retentionDays := id.retentionDays), at.0);
    RedactedMeaning(lib.settings, plain);
    hide NormalizedFields, Redacted, NormalizeLevel, Truncated, Cards.Redacted, Reads;
    if Arrived(lib, id, log, at, r) {
      assert r.attributes == Redacted(lib.settings, plain).attributes;
    }
  }

  /** One raw log: exactly one of the two, and the text is determined. */
  lemma SerializeMeaning(lib: Library, id: Identity, raw: string, at: (int, int))
    ensures Serialize(lib, id, raw, at) == None <==> Rejected(lib, id, raw, at)
    ensures forall text :: Serialize(lib, id, raw, at) == Some(text) <==> Encodes(lib, id, raw, at, text)
  {
    hide Arrived, NormalizedFields, Redacted, Blank, Normalize, Millis;
    match lib.decode(raw)
    case None =>
    case Some(log) =>
      var plain := log.(service := id.service, retentionDays := id.retentionDays);
      NormalizeAccepts(plain, at.0);
      forall r ensures Arrived(lib, id, log, at, r)
                  <==> r == Redacted(lib.settings, NormalizedFields(plain, at.0)).(ingestedAt := Millis(at.1)) {
        ArrivedOnly(lib, id, log, at, r);
      }
  }

  /** `kept` are the numbers of the raw logs that are not rejected, in their order, and `texts`
      what they become. */
  ghost predicate Carries(lib: Library, id: Identity, raw: seq<string>, at: Readings, texts: seq<string>, kept: seq<nat>) {
    && |texts| == |kept| && Rising(kept, |raw|)
    && (forall j | 0 <= j < |kept| :: Encodes(lib, id, raw[kept[j]], at(kept[j]), texts[j]))
    && (forall i | 0 <= i < |raw| :: i in kept <==> !Rejected(lib, id, raw[i], at(i)))
  }

  predicate Rising(ns: seq<nat>, bound: nat) {
    (forall j | 0 <= j < |ns| :: ns[j] < bound) && forall i, j | 0 <= i < j < |ns| :: ns[i] < ns[j]
  }

  /** What is appended for a request. */
  lemma {:induction false} SerializeAllMeaning(lib: Library, id: Identity, raw: seq<string>, at: Readings)
    returns (kept: seq<nat>)
    ensures Carries(lib, id, raw, at, SerializeAll(lib, id, raw, at), kept)
  {
    hide Encodes, Rejected, Serialize;
    if raw == [] {
      kept := [];
    } else {
      var n := |raw| - 1;
      var front := SerializeAllMeaning(lib, id, raw[..n], at);
      SerializeMeaning(lib, id, raw[n], at(n));
      kept := if Serialize(lib, id, raw[n], at(n)) == None then front else front + [n];
      CarriesMore(lib, id, raw, at, SerializeAll(lib, id, raw[..n], at), front, Serialize(lib, id, raw[n], at(n)));
    }
  }

  lemma CarriesMore(lib: Library, id: Identity, raw: seq<string>, at: Readings, texts: seq<string>, front: seq<nat>,
                    last: Option<string>)
    requires raw != [] && Carries(lib, id, raw[..|raw| - 1], at, texts, front)
    requires var n := |raw| - 1;
             && (last == None <==> Rejected(lib, id, raw[n], at(n)))
             && (last != None ==> Encodes(lib, id, raw[n], at(n), last.value))
    ensures last == None ==> Carries(lib, id, raw, at, texts, front)
    ensures last != None ==> Carries(lib, id, raw, at, texts + [last.value], front + [|raw| - 1])
  {
    hide Encodes, Rejected;
    var n := |raw| - 1;
    assert forall i | 0 <= i < n :: raw[..n][i] == raw[i];
    if last != None { assert n in front + [n] && forall i | i in front :: i in front + [n]; }
  }

  // ---------------------------------------------------------------- admission

  /** What the handler decides before it looks at the single logs; `length` is the stream
      length as far as it could be had. */
  datatype Admission = Refused(response: Response) | Admitted(id: Identity, raw: seq<string>)

  function Admit(lib: Library, request: Request, length: Option<int>): Admission {
    if !request.isPost then Refused(Response(405, 0, 0, false))
    else if request.apiKey !in lib.keys then Refused(Response(401, 0, 0, false))
    else if length.None? then Refused(Response(503, 0, 0, false))
    else if length.value > MAX_STREAM_ENTRIES then Refused(Response(429, 0, 0, true))
    else
      match request.body
      case BodyRefused(status) => Refused(Response(status, 0, 0, false))
      case NotAnArray => Refused(Response(400, 0, 0, false))
      case Logs(raw) =>
        if |raw| > MAX_BATCH_SIZE then Refused(Response(413, 0, 0, false)) else Admitted(lib.keys[request.apiKey], raw)
  }

  // ---------------------------------------------------------------- the append

  /** How one command of the pipeline went: acknowledged, carried out without an
      acknowledgement, or not carried out. */
  datatype Command = Acked | LandedUnacked | NotLanded

  function Landed<T>(texts: seq<T>, commands: seq<Command>): seq<T>
    requires |commands| == |texts|
  {
    if texts == [] then []
    else
      var n := |texts| - 1;
      Landed(texts[..n], commands[..n]) + (if commands[n] == NotLanded then [] else [texts[n]])
  }

  function Acks(commands: seq<Command>): nat {
    if commands == [] then 0 else Acks(commands[..|commands| - 1]) + (if commands[|commands| - 1] == Acked then 1 else 0)
  }

  /** Every command is acknowledged exactly when as many are as there are. */
  lemma {:induction false} AllAcked(commands: seq<Command>)
    ensures Acks(commands) <= |commands|
    ensures Acks(commands) == |commands| <==> forall c | c in commands :: c == Acked
  {
    if commands != [] {
      var init := commands[..|commands| - 1];
      var last := commands[|commands| - 1];
      AllAcked(init);
      assert commands == init + [last];
      assert last in commands && forall c | c in init :: c in commands;
    }
  }

  lemma {:induction false} AllLanded<T>(texts: seq<T>, commands: seq<Command>)
    requires |commands| == |texts| && forall c | c in commands :: c == Acked
    ensures Landed(texts, commands) == texts
  {
    if texts != [] {
      var n := |texts| - 1;
      assert commands[n] in commands;
      forall c | c in commands[..n] ensures c == Acked { assert c in commands; }
      AllLanded(texts[..n], commands[..n]);
      assert texts[..n] + [texts[n]] == texts;
    }
  }

  lemma {:induction false} LandedAtMost<T>(texts: seq<T>, commands: seq<Command>)
    requires |commands| == |texts|
    ensures Acks(commands) <= |Landed(texts, commands)| <= |texts|
  {
    if texts != [] {
      var n := |texts| - 1;
      LandedAtMost(texts[..n], commands[..n]);
    }
  }

  /** The answer once the append is over. */
  function Answer(texts: seq<string>, rejected: nat, commands: seq<Command>, pipelineOk: bool): Response
    requires |commands| == |texts|
  {
    if texts != [] && (!pipelineOk || Acks(commands) != |texts|) then Response(503, Acks(commands), rejected, false)
    else Response(202, Acks(commands), rejected, false)
  }

  /** A batch is answered with 202 only if every entry landed, in order. */
  lemma AcceptedLanded(texts: seq<string>, rejected: nat, commands: seq<Command>, pipelineOk: bool)
    requires |commands| == |texts|
    ensures var r := Answer(texts, rejected, commands, pipelineOk);
            && (r.status == 202 ==> Landed(texts, commands) == texts && r.accepted == |texts|)
            && (r.status == 202 <==> texts == [] || (pipelineOk && forall c | c in commands :: c == Acked))
            && r.accepted <= |Landed(texts, commands)| && r.status in [202, 503]
  {
    AllAcked(commands);
    LandedAtMost(texts, commands);
    if Acks(commands) == |texts| { AllLanded(texts, commands); }
  }

  // ---------------------------------------------------------------- the program

  class RedisStream {
    var entries: seq<string>

    constructor ()
      ensures entries == []
    {
      entries := [];
    }

    /** The commands go through one by one; `commands` says how each of them went. */
    method AddBatch(serializedLogs: seq<string>, commands: seq<Command>, pipelineOk: bool)
      returns (accepted: nat, ok: bool)
      requires |commands| == |serializedLogs|
      modifies this
      ensures entries == old(entries) + Landed(serializedLogs, commands)
      ensures accepted == Acks(commands)
      ensures ok == (serializedLogs == [] || (pipelineOk && accepted == |serializedLogs|))
    {
      if |serializedLogs| == 0 {
        return 0, true;
      }
      for i := 0 to |serializedLogs|
        invariant entries == old(entries) + Landed(serializedLogs[..i], commands[..i])
      {
        assert serializedLogs[..i + 1][..i] == serializedLogs[..i] && commands[..i + 1][..i] == commands[..i];
        if commands[i] != NotLanded {
          entries := entries + [serializedLogs[i]];
        }
      }
      accepted := 0;
      for i := 0 to |commands|
        invariant accepted == Acks(commands[..i])
      {
        assert commands[..i + 1][..i] == commands[..i];
        if commands[i] == Acked {
          accepted := accepted + 1;
        }
      }
      assert serializedLogs[..|serializedLogs|] == serializedLogs && commands[..|commands|] == commands;
      ok := pipelineOk && accepted == |serializedLogs|;
    }
  }

  class IngestHandler {
    const lib: Library
    const stream: RedisStream

    constructor (lib: Library, stream: RedisStream)
      ensures this.lib == lib && this.stream == stream
    {
      this.lib := lib;
      this.stream := stream;
    }

    /** The loop over the logs of an admitted request. */
    method SerializeLogs(id: Identity, rawLogs: seq<string>, at: Readings)
      returns (serializedLogs: seq<string>, rejected: nat)
      ensures serializedLogs == SerializeAll(lib, id, rawLogs, at)
      ensures |serializedLogs| + rejected == |rawLogs|
      ensures exists kept :: Carries(lib, id, rawLogs, at, serializedLogs, kept)
    {
      hide Redacted, Normalize, Carries;
      serializedLogs, rejected := [], 0;
      for i := 0 to |rawLogs|
        invariant serializedLogs == SerializeAll(lib, id, rawLogs[..i], at)
        invariant |serializedLogs| + rejected == i
      {
        assert rawLogs[..i + 1][..i] == rawLogs[..i];
        var decoded := lib.decode(rawLogs[i]);
        if decoded.None? {
          rejected := rejected + 1;
          continue;
        }
        var log := decoded.value.(service := id.service, retentionDays := id.retentionDays);
        var normalized := Normalize(log, at(i).0);
        if normalized.Err? {
          rejected := rejected + 1;
          continue;
        }
        var redacted := Processing.Redact(lib.settings, normalized.value);
        var encoded := lib.encode(redacted.(ingestedAt := Millis(at(i).1)));
        if encoded.None? {
          rejected := rejected + 1;
          continue;
        }
        serializedLogs := serializedLogs + [encoded.value];
      }
      assert rawLogs[..|rawLogs|] == rawLogs;
      ghost var kept := SerializeAllMeaning(lib, id, rawLogs, at);
    }

    /** One request, start to end; `lengthOk` and `outcome` are what the stream does. */
    method LogsRequest(request: Request, lengthOk: bool, at: Readings, outcome: nat -> Command, pipelineOk: bool)
      returns (response: Response)
      modifies stream
      ensures (stream.entries, response) == Handle(lib, old(stream.entries), request, lengthOk, at, outcome, pipelineOk)
    {
      hide SerializeAll, Carries;
      if !request.isPost {
        return Response(405, 0, 0, false);
      }
      if request.apiKey !in lib.keys {
        return Response(401, 0, 0, false);
      }
      var identity := lib.keys[request.apiKey];
      if !lengthOk {
        return Response(503, 0, 0, false);
      }
      if |stream.entries| > MAX_STREAM_ENTRIES {
        return Response(429, 0, 0, true);
      }
      if request.body.BodyRefused? {
        return Response(request.body.status, 0, 0, false);
      }
      if request.body.NotAnArray? {
        return Response(400, 0, 0, false);
      }
      var rawLogs := request.body.raw;
      if |rawLogs| > MAX_BATCH_SIZE {
        return Response(413, 0, 0, false);
      }
      var serializedLogs, rejected := SerializeLogs(identity, rawLogs, at);
      var accepted := 0;
      var commands := Outcomes(|serializedLogs|, outcome);
      if |serializedLogs| > 0 {
        var ok;
        accepted, ok := stream.AddBatch(serializedLogs, commands, pipelineOk);
        if !ok || accepted != |serializedLogs| {
          return Response(503, accepted, rejected, false);
        }
      }
      assert serializedLogs == [] ==> commands == [] && stream.entries == old(stream.entries) + Landed(serializedLogs, commands);
      return Response(202, accepted, rejected, false);
    }
  }

  function Outcomes(n: nat, outcome: nat -> Command): seq<Command> {
    seq(n, i requires 0 <= i => outcome(i))
  }

  /** A request handled without interruption. */
  function Handle(lib: Library, entries: seq<string>, request: Request, lengthOk: bool, at: Readings,
                  outcome: nat -> Command, pipelineOk: bool): (seq<string>, Response) {
    match Admit(lib, request, if lengthOk then Some(|entries|) else None)
    case Refused(response) => (entries, response)
    case Admitted(id, raw) =>
      var texts := SerializeAll(lib, id, raw, at);
      var rejected: nat := if |texts| <= |raw| then |raw| - |texts| else 0;
      (entries + Landed(texts, Outcomes(|texts|, outcome)), Answer(texts, rejected, Outcomes(|texts|, outcome), pipelineOk))
  }

  /** `landed` are the numbers of the commands that were carried out, in their order. */
  predicate CarriedOut(commands: seq<Command>, landed: seq<nat>) {
    && Rising(landed, |commands|)
    && forall i | 0 <= i < |commands| :: i in landed <==> commands[i] != NotLanded
  }

  function Picked<T>(s: seq<T>, ns: seq<nat>): seq<T>
    requires forall j | 0 <= j < |ns| :: ns[j] < |s|
  {
    seq(|ns|, j requires 0 <= j < |ns| && ns[j] < |s| => s[ns[j]])
  }

  lemma CarriedMore(commands: seq<Command>, front: seq<nat>)
    requires commands != [] && CarriedOut(commands[..|commands| - 1], front)
    ensures CarriedOut(commands, if commands[|commands| - 1] == NotLanded then front else front + [|commands| - 1])
  {
    var n := |commands| - 1;
    assert forall i | 0 <= i < n :: commands[..n][i] == commands[i];
    if commands[n] != NotLanded { assert n in front + [n] && forall i | i in front :: i in front + [n]; }
  }

  lemma PickedMore<T>(texts: seq<T>, front: seq<nat>, more: seq<nat>)
    requires texts != [] && more == front + [|texts| - 1] && forall j | 0 <= j < |front| :: front[j] < |texts| - 1
    ensures forall j | 0 <= j < |more| :: more[j] < |texts|
    ensures Picked(texts, front) == Picked(texts[..|texts| - 1], front)
    ensures Picked(texts, more) == Picked(texts, front) + [texts[|texts| - 1]]
  {
  }

  lemma {:induction false} LandedMeaning<T>(texts: seq<T>, commands: seq<Command>) returns (landed: seq<nat>)
    requires |commands| == |texts|
    ensures CarriedOut(commands, landed) && Landed(texts, commands) == Picked(texts, landed)
  {
    if texts == [] {
      landed := [];
    } else {
      var n := |texts| - 1;
      var front := LandedMeaning(texts[..n], commands[..n]);
      landed := if commands[n] == NotLanded then front else front + [n];
      PickedMore(texts, front, front + [n]);
      CarriedMore(commands, front);
      hide Picked, CarriedOut;
      assert Picked(texts, front) + [] == Picked(texts, front);
    }
  }

  function AckedOnes(commands: seq<Command>): set<nat> {
    set i: nat | i < |commands| && commands[i] == Acked
  }

  lemma {:induction false} AcksMeaning(commands: seq<Command>)
    ensures Acks(commands) == |AckedOnes(commands)|
  {
    if commands == [] {
      assert AckedOnes(commands) == {};
    } else {
      var n := |commands| - 1;
      AcksMeaning(commands[..n]);
      assert forall i | 0 <= i < n :: commands[..n][i] == commands[i];
      var before := AckedOnes(commands[..n]);
      assert AckedOnes(commands) == if commands[n] == Acked then before + {n} else before;
    }
  }

  /** Which answer a request gets before its logs are looked at, in the order of the checks; the
      stream stays as it is. Only a full stream asks the sender to wait. */
  lemma AdmissionMeaning(lib: Library, entries: seq<string>, request: Request, lengthOk: bool, at: Readings,
                         outcome: nat -> Command, pipelineOk: bool)
    ensures var h := Handle(lib, entries, request, lengthOk, at, outcome, pipelineOk);
            if !request.isPost then h == (entries, Response(405, 0, 0, false))
            else if request.apiKey !in lib.keys then h == (entries, Response(401, 0, 0, false))
            else if !lengthOk then h == (entries, Response(503, 0, 0, false))
            else if |entries| > 1_000_000 then h == (entries, Response(429, 0, 0, true))
            else if request.body.BodyRefused? then h == (entries, Response(request.body.status, 0, 0, false))
            else if request.body.NotAnArray? then h == (entries, Response(400, 0, 0, false))
            else if |request.body.raw| > 10_000 then h == (entries, Response(413, 0, 0, false))
            else h.1.status in [202, 503] && !h.1.busy
  {
    hide SerializeAll, Landed, Acks;
  }

  /** What an answer says about an admitted request. `texts` are the entries made of the logs that are
      not rejected, and `kept` their numbers; those whose command was carried out are appended in
      their order. The counts are those of the acknowledged commands and of the rejected logs, and
      the status is 202 exactly when every command is acknowledged and the pipeline went well, or
      there was nothing to append. */
  lemma StatusMeaning(lib: Library, entries: seq<string>, request: Request, at: Readings,
                      outcome: nat -> Command, pipelineOk: bool)
      returns (texts: seq<string>, kept: seq<nat>, landed: seq<nat>)
    requires request.isPost && request.apiKey in lib.keys && |entries| <= 1_000_000
    requires request.body.Logs? && |request.body.raw| <= 10_000
    ensures var (after, r) := Handle(lib, entries, request, true, at, outcome, pipelineOk);
            var commands := Outcomes(|texts|, outcome);
            && Carries(lib, lib.keys[request.apiKey], request.body.raw, at, texts, kept)
            && CarriedOut(commands, landed) && after == entries + Picked(texts, landed)
            && r.accepted == |AckedOnes(commands)| && r.rejected == |request.body.raw| - |texts|
            && (r.status == 202 <==> texts == [] || (pipelineOk && forall i | 0 <= i < |texts| :: commands[i] == Acked))
            && (r.status == 202 ==> after == entries + texts && r.accepted + r.rejected == |request.body.raw|)
            && |texts| <= |request.body.raw|
  {
    hide Carries, CarriedOut, Landed, Acks, AckedOnes, SerializeAll;
    var id, raw := lib.keys[request.apiKey], request.body.raw;
    texts := SerializeAll(lib, id, raw, at);
    var commands := Outcomes(|texts|, outcome);
    kept := SerializeAllMeaning(lib, id, raw, at);
    landed := LandedMeaning(texts, commands);
    SerializedAtMost(lib, id, raw, at);
    AcksMeaning(commands);
    AcceptedLanded(texts, |raw| - |texts|, commands, pipelineOk);
    assert forall i | 0 <= i < |texts| :: commands[i] in commands;
  }

  // ---------------------------------------------------------------- backpressure under concurrency

  /** The stream and the requests between their length check and their append. */
  datatype Gate = Gate(length: nat, open: seq<seq<string>>)

  datatype Event =
    | Arrives(request: Request, at: Readings)
    | Appends(which: nat, outcome: nat -> Command)
    | Aborts(which: nat)
    | Consumed(count: nat)

  function Drop<T>(s: seq<T>, i: nat): seq<T> {
    if i < |s| then s[..i] + s[i + 1..] else s
  }

  function Pass(lib: Library, g: Gate, ev: Event): Gate {
    match ev
    case Arrives(request, at) =>
      (match Admit(lib, request, Some(g.length))
       case Refused(_) => g
       case Admitted(id, raw) => g.(open := g.open + [SerializeAll(lib, id, raw, at)]))
    case Appends(which, outcome) =>
      if which < |g.open| then
        Gate(g.length + |Landed(g.open[which], Outcomes(|g.open[which]|, outcome))|, Drop(g.open, which))
      else g
    case Aborts(which) => g.(open := Drop(g.open, which))
    case Consumed(count) => g.(length := if count <= g.length then g.length - count else 0)
  }

  function PassAll(lib: Library, g: Gate, evs: seq<Event>): Gate {
    if evs == [] then g else Pass(lib, PassAll(lib, g, evs[..|evs| - 1]), evs[|evs| - 1])
  }

  /** At most `n` requests are ever between check and append. */
  ghost predicate AtMost(lib: Library, n: nat, evs: seq<Event>) {
    forall i | 0 <= i <= |evs| :: |PassAll(lib, Gate(0, []), evs[..i]).open| <= n
  }

  /** Each open request may still add a full batch. */
  predicate Reserved(g: Gate, n: nat) {
    && (forall t | t in g.open :: |t| <= MAX_BATCH_SIZE)
    && g.length + |g.open| * MAX_BATCH_SIZE <= MAX_STREAM_ENTRIES + n * MAX_BATCH_SIZE
  }

  lemma PassReserved(lib: Library, g: Gate, ev: Event, n: nat)
    requires Reserved(g, n) && |Pass(lib, g, ev).open| <= n
    ensures Reserved(Pass(lib, g, ev), n)
  {
    hide SerializeAll, Landed;
    match ev
    case Arrives(request, at) =>
      var a := Admit(lib, request, Some(g.length));
      if a.Admitted? { SerializedAtMost(lib, a.id, a.raw, at); }
    case Appends(which, outcome) =>
      if which < |g.open| {
        assert g.open[which] in g.open;
        LandedAtMost(g.open[which], Outcomes(|g.open[which]|, outcome));
      }
    case Aborts(which) =>
    case Consumed(count) =>
  }

  /** With at most `n` requests between check and append, and a consumer that only removes,
      the stream never holds more than the limit and `n` full batches. */
  lemma {:induction false} OvershootBounded(lib: Library, n: nat, evs: seq<Event>)
    requires AtMost(lib, n, evs)
    ensures Reserved(PassAll(lib, Gate(0, []), evs), n)
    ensures PassAll(lib, Gate(0, []), evs).length <= MAX_STREAM_ENTRIES + n * MAX_BATCH_SIZE
  {
    hide Pass;
    if evs != [] {
      var k := |evs| - 1;
      forall i | 0 <= i <= k ensures |PassAll(lib, Gate(0, []), evs[..k][..i]).open| <= n {
        assert evs[..k][..i] == evs[..i];
      }
      OvershootBounded(lib, n, evs[..k]);
      assert evs[..|evs|] == evs && |PassAll(lib, Gate(0, []), evs[..|evs|]).open| <= n;
      PassReserved(lib, PassAll(lib, Gate(0, []), evs[..k]), evs[k], n);
    }
  }

  lemma {:induction false} PassTwice(lib: Library, g: Gate, a: seq<Event>, b: seq<Event>)
    ensures PassAll(lib, g, a + b) == PassAll(lib, PassAll(lib, g, a), b)
  {
    hide Pass;
    if b == [] {
      assert a + b == a;
    } else {
      assert (a + b)[..|a + b| - 1] == a + b[..|b| - 1];
      PassTwice(lib, g, a, b[..|b| - 1]);
    }
  }

  function Same<T>(x: T, n: nat): seq<T> {
    if n == 0 then [] else Same(x, n - 1) + [x]
  }

  lemma {:induction false} ArriveMany(lib: Library, length: nat, request: Request, at: Readings, texts: seq<string>, k: nat)
    requires var a := Admit(lib, request, Some(length));
             a.Admitted? && SerializeAll(lib, a.id, a.raw, at) == texts
    ensures PassAll(lib, Gate(length, []), Same(Arrives(request, at), k)) == Gate(length, Same(texts, k))
  {
    hide SerializeAll;
    if k > 0 {
      var evs := Same(Arrives(request, at), k);
      assert evs[..|evs| - 1] == Same(Arrives(request, at), k - 1);
      ArriveMany(lib, length, request, at, texts, k - 1);
    }
  }

  lemma {:induction false} SameLength<T>(x: T, k: nat)
    ensures |Same(x, k)| == k && (k > 0 ==> Same(x, k)[0] == x && Same(x, k)[1..] == Same(x, k - 1))
  {
    if k > 1 {
      SameLength(x, k - 1);
      assert Same(x, k)[1..] == Same(x, k - 1)[1..] + [x];
    }
  }

  lemma AppendFirst(lib: Library, length: nat, texts: seq<string>, k: nat)
    requires k > 0
    ensures Pass(lib, Gate(length, Same(texts, k)), Appends(0, _ => Acked)) == Gate(length + |texts|, Same(texts, k - 1))
  {
    hide Same, Landed, SerializeAll, Admit;
    SameLength(texts, k);
    AllLanded(texts, Outcomes(|texts|, _ => Acked));
    assert Drop(Same(texts, k), 0) == Same(texts, k)[1..];
  }

  lemma OneMore(k: int, width: int)
    ensures width + (k - 1) * width == k * width
  {
  }

  lemma {:induction false} AppendMany(lib: Library, length: nat, texts: seq<string>, k: nat)
    ensures PassAll(lib, Gate(length, Same(texts, k)), Same(Appends(0, _ => Acked), k)) == Gate(length + k * |texts|, [])
    decreases k
  {
    if k > 0 {
      var ev := Appends(0, _ => Acked);
      AppendFirst(lib, length, texts, k);
      SameLength(ev, k);
      hide Pass, Same;
      var g, g1 := Gate(length, Same(texts, k)), Gate(length + |texts|, Same(texts, k - 1));
      assert [ev][..0] == [] && PassAll(lib, g, []) == g && PassAll(lib, g, [ev]) == g1;
      assert Same(ev, k) == [ev] + Same(ev, k - 1);
      PassTwice(lib, g, [ev], Same(ev, k - 1));
      AppendMany(lib, length + |texts|, texts, k - 1);
      OneMore(k, |texts|);
    }
  }

  /** The bound is reached: a request of 10,000 good logs, sent `n` times before the first
      append, takes a stream at its limit to the bound. */
  lemma OvershootReached(lib: Library, request: Request, at: Readings, n: nat)
    requires var a := Admit(lib, request, Some(MAX_STREAM_ENTRIES));
             a.Admitted? && |SerializeAll(lib, a.id, a.raw, at)| == MAX_BATCH_SIZE
    ensures var evs := Same(Arrives(request, at), n) + Same(Appends(0, _ => Acked), n);
            PassAll(lib, Gate(MAX_STREAM_ENTRIES, []), evs) == Gate(MAX_STREAM_ENTRIES + n * MAX_BATCH_SIZE, [])
  {
    hide Pass, SerializeAll, Admit, Same;
    var a := Admit(lib, request, Some(MAX_STREAM_ENTRIES));
    var texts := SerializeAll(lib, a.id, a.raw, at);
    PassTwice(lib, Gate(MAX_STREAM_ENTRIES, []), Same(Arrives(request, at), n), Same(Appends(0, _ => Acked), n));
    ArriveMany(lib, MAX_STREAM_ENTRIES, request, at, texts, n);
    AppendMany(lib, MAX_STREAM_ENTRIES, texts, n);
  }
}
