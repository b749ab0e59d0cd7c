/**
 What happens to one assembled line: parse, normalize, filter by level, sample,
 redact. Parsing, the redaction rules other than the card rule, the clock and
 the random draws are parameters.
 */
module Processing {
  import opened Tailing
  import opened Schema
  import Cards

  datatype Decision = Keep(record: Log) | FilteredByLevel | FilteredBySampling

  /** The configuration and the library code that processing depends on. */
  datatype Settings = Settings(
    host: string, env: string, minLevel: string, sampling: map<string, real>,
    parse: (FileLine, int) -> Log,
    clock: int -> int,
    otherRules: string -> string,
    sensitiveKey: string -> bool,
    draw: nat -> real)

  // ---------------------------------------------------------------- redaction of a record

  function RedactedMessage(s: Settings, message: string): string {
    Cards.Redacted(s.otherRules(message))
  }

  function RedactedValue(s: Settings, key: string, value: string): string {
    if s.sensitiveKey(key) then (if value != "" && value != Cards.MASK then Cards.MASK else value)
    else RedactedMessage(s, value)
  }

  function RedactedAttributes(s: Settings, attributes: map<string, string>): map<string, string> {
    map k | k in attributes :: RedactedValue(s, k, attributes[k])
  }

  function Redacted(s: Settings, log: Log): Log {
    var message, attributes := RedactedMessage(s, log.message), RedactedAttributes(s, log.attributes);
    log.(message := message, attributes := attributes,
         redacted := log.redacted || message != log.message || attributes != log.attributes)
  }

  /** The message is masked, every value of a sensitive key is gone, and the flag says
      whether anything changed, without ever being cleared. */
  method Redact(s: Settings, record: Log) returns (log: Log)
    ensures log == Redacted(s, record)
  {
    hide Cards.Redacted;
    log := record;
    var changed := false;
    var message := Cards.RedactCardNumbers(s.otherRules(log.message));
    if message != log.message {
      log := log.(message := message);
      changed := true;
    }
    var attributes: map<string, string> := map[];
    var todo := log.attributes.Keys;
    while todo != {}
      invariant todo <= record.attributes.Keys
      invariant attributes.Keys == record.attributes.Keys - todo
      invariant forall k | k in attributes :: attributes[k] == RedactedValue(s, k, record.attributes[k])
      invariant changed <==> message != record.message || exists k :: k in attributes && attributes[k] != record.attributes[k]
    {
      var key :| key in todo;
      todo := todo - {key};
      var value := record.attributes[key];
      var redactedValue := value;
      if s.sensitiveKey(key) {
        if value != "" && value != Cards.MASK {
          redactedValue := Cards.MASK;
        }
      } else {
        redactedValue := Cards.RedactCardNumbers(s.otherRules(value));
      }
      if redactedValue != value {
        changed := true;
      }
      ghost var before := attributes;
      attributes := attributes[key := redactedValue];
      assert forall k | k in before :: k != key && attributes[k] == before[k];
      assert (exists k :: k in attributes && attributes[k] != record.attributes[k])
        <==> redactedValue != value || exists k :: k in before && before[k] != record.attributes[k] by {
        if redactedValue != value { assert key in attributes; }
        if k :| k in before && before[k] != record.attributes[k] { assert k in attributes; }
      }
    }
    assert attributes == RedactedAttributes(s, record.attributes);
    log := log.(attributes := attributes, redacted := log.redacted || changed);
  }

  /** When the other rules find nothing more to do, redacting a record again at ingest only
      repeats the first result. */
  lemma RedactedTwice(s: Settings, log: Log)
    requires var once := Redacted(s, log);
             s.otherRules(once.message) == once.message
             && forall k | k in once.attributes && !s.sensitiveKey(k) :: s.otherRules(once.attributes[k]) == once.attributes[k]
    ensures Redacted(s, Redacted(s, log)) == Redacted(s, log)
  {
    hide Cards.Redacted;
    var once := Redacted(s, log);
    Cards.RedactedTwice(s.otherRules(log.message));
    forall k | k in once.attributes ensures RedactedValue(s, k, once.attributes[k]) == once.attributes[k] {
      Cards.RedactedTwice(s.otherRules(log.attributes[k]));
    }
    assert RedactedAttributes(s, once.attributes) == once.attributes;
  }

  // ---------------------------------------------------------------- keep or drop

  function Percentage(s: Settings, level: string): real {
    var l := NormalizeLevel(level);
    if l in s.sampling then s.sampling[l] else 100.0
  }

  function Parsed(s: Settings, line: FileLine, now: int): Log {
    var reference := if now == 0 then s.clock(now) else now;
    NormalizedFields(s.parse(line, now).(host := s.host, env := s.env), reference)
  }

  /** The decision for one line, and how many draws have been used afterwards. */
  function Decide(s: Settings, line: FileLine, now: int, drawn: nat): (Decision, nat) {
    var log := Parsed(s, line, now);
    var p := Percentage(s, log.level);
    if LevelRank(log.level) < LevelRank(s.minLevel) then (FilteredByLevel, drawn)
    else if p <= 0.0 then (FilteredBySampling, drawn)
    else if p >= 100.0 then (Keep(Redacted(s, log)), drawn)
    else if s.draw(drawn) * 100.0 >= p then (FilteredBySampling, drawn + 1)
    else (Keep(Redacted(s, log)), drawn + 1)
  }

  class LogProcessor {
    const settings: Settings
    var drawn: nat

    constructor (settings: Settings)
      ensures this.settings == settings && drawn == 0
    {
      this.settings := settings;
      drawn := 0;
    }

    method RandomUnit() returns (u: real)
      modifies this`drawn
      ensures u == settings.draw(old(drawn)) && drawn == old(drawn) + 1
    {
      u := settings.draw(drawn);
      drawn := drawn + 1;
    }

    method ProcessDetailed(line: FileLine, now: int) returns (decision: Decision)
      modifies this`drawn
      ensures (decision, drawn) == Decide(settings, line, now, old(drawn))
    {
      hide Redacted, NormalizedFields, NormalizeLevel, LevelRank;
      var log := settings.parse(line, now);
      log := log.(host := settings.host, env := settings.env);
      log := NormalizeFieldsAt(log, now, settings.clock(now));
      if LevelRank(log.level) < LevelRank(settings.minLevel) {
        return FilteredByLevel;
      }
      var percentage := Percentage(settings, log.level);
      if percentage <= 0.0 {
        return FilteredBySampling;
      }
      if percentage < 100.0 {
        var u := RandomUnit();
        if u * 100.0 >= percentage {
          return FilteredBySampling;
        }
      }
      var record := Redact(settings, log);
      return Keep(record);
    }
  }

  /** `low` comes before `high` in the order of severity. */
  predicate LessSevere(low: string, high: string) {
    var levels := ["trace", "debug", "info", "warn", "error", "fatal"];
    exists i, j | 0 <= i < j < 6 :: levels[i] == low && levels[j] == high
  }

  lemma RankOrder(a: string, b: string)
    ensures LevelRank(a) < LevelRank(b) <==> LessSevere(NormalizeLevel(a), NormalizeLevel(b))
  {
    LevelRankMeaning(a);
    LevelRankMeaning(b);
    hide LevelRank, NormalizeLevel;
  }

  /** What a decision means. The parsed record, under the configured host and environment, is
      normalized at the time of the poll, or at the clock's when there is none. Less severe than the
      minimum level exactly: filtered by level, without a draw. Otherwise the rate of the record's
      level decides, 100 when none is set: a rate of 0 or less filters and a rate of 100 or more
      keeps, without a draw; a rate between takes one draw and keeps exactly when the draw falls
      below it. What is kept is redacted. */
  lemma DecideMeaning(s: Settings, line: FileLine, now: int, drawn: nat)
    ensures var (decision, after) := Decide(s, line, now, drawn);
            var log := NormalizedFields(s.parse(line, now).(host := s.host, env := s.env),
                                        if now == 0 then s.clock(now) else now);
            var rate := if log.level in s.sampling then s.sampling[log.level] else 100.0;
            && log.host == s.host && log.env == s.env
            && (decision.FilteredByLevel? <==> LessSevere(log.level, NormalizeLevel(s.minLevel)))
            && after == drawn + (if !decision.FilteredByLevel? && 0.0 < rate < 100.0 then 1 else 0)
            && (!decision.FilteredByLevel? ==>
                  (decision.Keep? <==> rate >= 100.0 || (rate > 0.0 && s.draw(drawn) * 100.0 < rate)))
            && (decision.Keep? ==> decision.record == Redacted(s, log))
  {
    hide RedactedMessage, RedactedAttributes, NormalizedFields, NormalizeLevel, LevelRank, LessSevere;
    var record := s.parse(line, now).(host := s.host, env := s.env);
    var reference := if now == 0 then s.clock(now) else now;
    var log := NormalizedFields(record, reference);
    FieldsKept(record, reference);
    LevelKept(record, reference);
    RankOrder(log.level, s.minLevel);
  }

  lemma LevelKept(log: Log, now: int)
    ensures NormalizeLevel(NormalizedFields(log, now).level) == NormalizedFields(log, now).level
  {
    NormalizeLevelTwice(log.level);
    hide NormalizeLevel, Truncated, StampedAt;
  }

  /** What redaction does: no other field than message, attributes and flag changes; the message
      and each value of an ordinary key go through the rules and the card rule; a value of a
      sensitive key that is not empty is masked whole; the flag tells of any change. */
  lemma RedactedMeaning(s: Settings, log: Log)
    ensures var r := Redacted(s, log);
            && r == log.(message := r.message, attributes := r.attributes, redacted := r.redacted)
            && r.message == Cards.Redacted(s.otherRules(log.message))
            && r.attributes.Keys == log.attributes.Keys
            && (forall k | k in log.attributes :: Masking(s, k, log.attributes[k], r.attributes[k]))
            && (r.redacted <==>
                  log.redacted || r.message != log.message
                  || exists k :: k in log.attributes && log.attributes[k] != r.attributes[k])
  {
    hide Cards.Redacted;
  }

  predicate Masking(s: Settings, key: string, value: string, masked: string) {
    masked == if s.sensitiveKey(key) then (if value == "" then "" else "[REDACTED]")
              else Cards.Redacted(s.otherRules(value))
  }

  // ---------------------------------------------------------------- the same line at another time

  const TIME_FLAGS := {TIMESTAMP_MISSING, TIMESTAMP_CORRECTED, TIMESTAMP_SKEW_MILLIS}

  /** Parsing does not look at the time of the poll. */
  ghost predicate TimeFree(s: Settings) {
    forall line, t1, t2 :: s.parse(line, t1) == s.parse(line, t2)
  }

  /** No level is sampled by chance. */
  predicate Certain(s: Settings) {
    forall l | l in s.sampling :: s.sampling[l] <= 0.0 || s.sampling[l] >= 100.0
  }

  /** The same configuration with another clock and other draws. */
  ghost predicate SameRules(s1: Settings, s2: Settings) {
    && s2.host == s1.host && s2.env == s1.env && s2.minLevel == s1.minLevel && s2.sampling == s1.sampling
    && s2.parse == s1.parse && s2.otherRules == s1.otherRules && s2.sensitiveKey == s1.sensitiveKey
  }

  predicate SameAttribute(a: map<string, string>, b: map<string, string>, k: string) {
    (k in a <==> k in b) && (k in a ==> a[k] == b[k])
  }

  /** Equal but for the two times, the flags that tell of them, and the mark of redaction, which
      a masked flag can set. */
  ghost predicate SameButTime(a: Log, b: Log) {
    && a.service == b.service && a.host == b.host && a.env == b.env && a.level == b.level && a.message == b.message
    && a.traceId == b.traceId && a.retentionDays == b.retentionDays
    && forall k | k !in TIME_FLAGS :: SameAttribute(a.attributes, b.attributes, k)
  }

  /** No time flag is itself redacted. */
  predicate FlagsUntouched(s: Settings, log: Log) {
    forall k | k in log.attributes && k in TIME_FLAGS :: RedactedValue(s, k, log.attributes[k]) == log.attributes[k]
  }

  /** Both filtered for the same reason, or both kept as records that differ in time only. */
  ghost predicate Alike(a: Decision, b: Decision) {
    a == b || (a.Keep? && b.Keep? && SameButTime(a.record, b.record))
  }

  lemma NormalizedAlike(log: Log, t1: int, t2: int)
    ensures SameButTime(NormalizedFields(log, t1), NormalizedFields(log, t2))
    ensures NormalizedFields(log, t1).redacted == NormalizedFields(log, t2).redacted == log.redacted
  {
    hide NormalizeLevel, Truncated, Millis, Decimal, Since;
  }

  lemma RedactedAlike(s1: Settings, s2: Settings, a: Log, b: Log)
    requires SameRules(s1, s2) && SameButTime(a, b)
    ensures SameButTime(Redacted(s1, a), Redacted(s2, b))
    ensures FlagsUntouched(s1, a) && FlagsUntouched(s2, b) && a.redacted == b.redacted ==>
              Redacted(s1, a).redacted == Redacted(s2, b).redacted
  {
    hide Cards.Redacted;
    var x, y := RedactedAttributes(s1, a.attributes), RedactedAttributes(s2, b.attributes);
    forall k | k !in TIME_FLAGS ensures SameAttribute(x, y, k) {
      assert SameAttribute(a.attributes, b.attributes, k);
    }
    if FlagsUntouched(s1, a) && FlagsUntouched(s2, b) {
      Changes(s1, a, s2, b);
      Changes(s2, b, s1, a);
    }
  }

  /** When no flag is touched, an attribute changed in one record is changed in the other. */
  lemma Changes(s1: Settings, a: Log, s2: Settings, b: Log)
    requires SameRules(s1, s2) && FlagsUntouched(s1, a)
    requires forall k | k !in TIME_FLAGS :: SameAttribute(a.attributes, b.attributes, k)
    ensures RedactedAttributes(s1, a.attributes) != a.attributes ==> RedactedAttributes(s2, b.attributes) != b.attributes
  {
    hide Cards.Redacted;
    var x, y := RedactedAttributes(s1, a.attributes), RedactedAttributes(s2, b.attributes);
    if x != a.attributes {
      var k :| k in a.attributes && x[k] != a.attributes[k];
      assert k !in TIME_FLAGS && SameAttribute(a.attributes, b.attributes, k);
      assert y[k] != b.attributes[k];
    }
  }

  /** With a parser that does not look at the time and no level sampled by chance, the decision
      on a line at another time, with another clock and other draws, is the same, and what is
      kept differs in time only. */
  lemma DecideAlike(s1: Settings, s2: Settings, line: FileLine, t1: int, t2: int, d1: nat, d2: nat)
    requires SameRules(s1, s2) && TimeFree(s1) && Certain(s1)
    ensures Alike(Decide(s1, line, t1, d1).0, Decide(s2, line, t2, d2).0)
  {
    hide RedactedMessage, RedactedAttributes, NormalizeLevel, LevelRank, SameButTime, NormalizedFields, Redacted;
    var a, b := Parsed(s1, line, t1), Parsed(s2, line, t2);
    assert s1.parse(line, t1) == s2.parse(line, t2);
    NormalizedAlike(s1.parse(line, t1).(host := s1.host, env := s1.env),
                    if t1 == 0 then s1.clock(t1) else t1, if t2 == 0 then s2.clock(t2) else t2);
    assert a.level == b.level by { SameLevel(a, b); }
    RedactedAlike(s1, s2, a, b);
  }

  lemma SameLevel(a: Log, b: Log)
    requires SameButTime(a, b)
    ensures a.level == b.level
  {
  }

  // ---------------------------------------------------------------- a configuration that keeps everything

  /** Lines taken as messages, nothing filtered, nothing redacted but cards. */
  function KeepAll(): Settings {
    Settings("host", "env", "trace", map[],
             (line: FileLine, now: int) => Log(0, "", "", "", "info", line.text, "", map[], false, 0, 0),
             (t: int) => 1, (m: string) => m, (k: string) => false, (n: nat) => 0.0)
  }

  lemma KeepAllKeeps()
    ensures forall line, now, drawn :: Decide(KeepAll(), line, now, drawn).0.Keep?
    ensures TimeFree(KeepAll()) && Certain(KeepAll())
  {
    hide Redacted, NormalizedFields;
    assert NormalizeLevel("trace") == "trace" by {
      assert "trace" == Canonical("trace");
      CanonicalTwice("trace");
      LowerNotTrimmed("trace");
      LowerKept("trace");
    }
    assert LevelRank("trace") == 0;
  }
}
