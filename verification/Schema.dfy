/**
 The log record and its normalization: time correction that stays put when it
 is applied again later, and truncation that never cuts a UTF-8 character.
 Times are nanoseconds since Go's zero time.
 */
module Schema {
  import opened Text

  const MILLISECOND := 1_000_000
  const MAX_MESSAGE_LENGTH := 16 * 1024
  const MAX_FUTURE_SKEW := 5 * 60 * 1000 * MILLISECOND
  const MAX_DURATION := 0x7FFF_FFFF_FFFF_FFFF

  const TIMESTAMP_MISSING := "timestamp_missing"
  const TIMESTAMP_CORRECTED := "timestamp_corrected"
  const TIMESTAMP_SKEW_MILLIS := "timestamp_skew_ms"

  datatype Log = Log(
    timestamp: int, service: string, host: string, env: string, level: string, message: string,
    traceId: string, attributes: map<string, string>, redacted: bool, ingestedAt: int, retentionDays: nat)

  datatype Result<+T> = Ok(value: T) | Err(error: string)

  // ---------------------------------------------------------------- levels

  function Canonical(l: string): (r: string)
    ensures r in ["trace", "debug", "info", "warn", "error", "fatal"]
  {
    if l in ["trace", "verbose", "finest"] then "trace"
    else if l in ["debug", "dbg"] then "debug"
    else if l in ["info", "informational", "notice"] then "info"
    else if l in ["warn", "warning", "wrn"] then "warn"
    else if l in ["error", "err", "exception"] then "error"
    else if l in ["fatal", "critical", "crit", "panic", "emergency", "alert"] then "fatal"
    else "info"
  }

  function NormalizeLevel(level: string): string {
    Canonical(ToLower(TrimSpace(level)))
  }

  function LevelRank(level: string): nat {
    var l := NormalizeLevel(level);
    if l == "trace" then 0 else if l == "debug" then 1 else if l == "info" then 2
    else if l == "warn" then 3 else if l == "error" then 4 else 5
  }

  predicate Lower(s: string) {
    forall c | c in s :: 'a' <= c <= 'z'
  }

  lemma {:induction false} LowerKept(s: string)
    requires Lower(s)
    ensures ToLower(s) == s
  {
    if s != "" {
      assert s[0] in s && forall c | c in s[1..] :: c in s;
      LowerKept(s[1..]);
    }
  }

  lemma LetterIsNoSpace(s: string, i: nat)
    requires Lower(s) && i < |s|
    ensures SpaceLength(s[i..]) == 0
  {
    assert s[i] in s && s[i..][0] == s[i];
  }

  lemma LowerNotTrimmed(s: string)
    requires Lower(s)
    ensures TrimSpace(s) == s
  {
    hide Lower, SpaceLength, TrimSpace;
    if s != "" {
      assert s[0..] == s;
      LetterIsNoSpace(s, 0);
      LetterIsNoSpace(s, |s| - 1);
      if |s| >= 2 { LetterIsNoSpace(s, |s| - 2); }
      if |s| >= 3 { LetterIsNoSpace(s, |s| - 3); }
    }
    NotTrimmed(s);
  }

  lemma CanonicalTwice(l: string)
    ensures Canonical(Canonical(l)) == Canonical(l) && Lower(Canonical(l))
  {
    KnownLevel(Canonical(l));
  }

  lemma KnownLevel(r: string)
    requires r in ["trace", "debug", "info", "warn", "error", "fatal"]
    ensures Canonical(r) == r && Lower(r)
  {
  }

  lemma NormalizeLevelTwice(level: string)
    ensures NormalizeLevel(NormalizeLevel(level)) == NormalizeLevel(level)
  {
    var l := ToLower(TrimSpace(level));
    CanonicalTwice(l);
    hide Canonical, Lower, ToLower, TrimSpace;
    LowerKept(Canonical(l));
    LowerNotTrimmed(Canonical(l));
  }

  ghost predicate AnySpelling(w: string, names: seq<string>) {
    exists name | name in names :: Spells(w, name)
  }

  lemma SpellingMeaning(w: string, names: seq<string>)
    requires forall name | name in names :: Lower(name)
    ensures AnySpelling(w, names) <==> ToLower(w) in names
  {
    hide Spells, ToLower;
    forall name | name in names ensures ToLower(w) == name <==> Spells(w, name) { LowerMeaning(w, name); }
  }

  /** White space around the name of a level and the case of its letters do not matter; a name
      that is not known means information. */
  lemma LevelMeaning(level: string) returns (before: seq<White>, w: string, behind: seq<White>)
    ensures level == Encoded(before) + w + Encoded(behind) && !BeginsWhite(w) && !EndsWhite(w)
    ensures NormalizeLevel(level)
         == if AnySpelling(w, ["trace", "verbose", "finest"]) then "trace"
            else if AnySpelling(w, ["debug", "dbg"]) then "debug"
            else if AnySpelling(w, ["info", "informational", "notice"]) then "info"
            else if AnySpelling(w, ["warn", "warning", "wrn"]) then "warn"
            else if AnySpelling(w, ["error", "err", "exception"]) then "error"
            else if AnySpelling(w, ["fatal", "critical", "crit", "panic", "emergency", "alert"]) then "fatal"
            else "info"
  {
    before, behind := TrimSpaceMeaning(level);
    w := TrimSpace(level);
    hide AnySpelling, ToLower, TrimSpace, Encoded, BeginsWhite, EndsWhite;
    SpellingMeaning(w, ["trace", "verbose", "finest"]);
    SpellingMeaning(w, ["debug", "dbg"]);
    SpellingMeaning(w, ["info", "informational", "notice"]);
    SpellingMeaning(w, ["warn", "warning", "wrn"]);
    SpellingMeaning(w, ["error", "err", "exception"]);
    SpellingMeaning(w, ["fatal", "critical", "crit", "panic", "emergency", "alert"]);
  }

  /** The rank is the place in the list of levels. */
  lemma LevelRankMeaning(level: string)
    ensures LevelRank(level) < 6
    ensures ["trace", "debug", "info", "warn", "error", "fatal"][LevelRank(level)] == NormalizeLevel(level)
  {
    hide ToLower, TrimSpace;
  }

  // ---------------------------------------------------------------- truncation

  /** A byte that does not continue a UTF-8 character. */
  predicate RuneStart(b: char) {
    !(0x80 <= b as int <= 0xBF)
  }

  /** Where a cut at or below `end` meets the start of a character. */
  function CutAt(s: string, end: nat): (e: nat)
    requires end < |s|
    ensures e <= end && (e == 0 || RuneStart(s[e]))
    ensures forall k | e < k <= end :: !RuneStart(s[k])
  {
    if end == 0 || RuneStart(s[end]) then end else CutAt(s, end - 1)
  }

  function Truncated(message: string, maxBytes: nat): string {
    if |message| <= maxBytes then message else message[..CutAt(message, maxBytes)]
  }

  method TruncateMessage(message: string, maxBytes: nat) returns (r: string)
    ensures r == Truncated(message, maxBytes)
  {
    if |message| <= maxBytes {
      return message;
    }
    var end := maxBytes;
    while end > 0 && !RuneStart(message[end])
      invariant 0 <= end <= maxBytes
      invariant CutAt(message, end) == CutAt(message, maxBytes)
    {
      end := end - 1;
    }
    return message[..end];
  }

  /** On any bytes: a message within the limit stays; a longer one is cut at the last place
      within the limit whose next byte does not continue a UTF-8 character. */
  lemma TruncatedMeaning(message: string, maxBytes: nat)
    ensures var r := Truncated(message, maxBytes);
            && r <= message && (|message| <= maxBytes ==> r == message)
            && (|message| > maxBytes ==>
                  && |r| <= maxBytes && (r != "" ==> message[|r|] as int < 0x80 || message[|r|] as int > 0xBF)
                  && forall k | |r| < k <= maxBytes :: 0x80 <= message[k] as int <= 0xBF)
  {
  }

  predicate Tail(b: char) {
    0x80 <= b as int <= 0xBF
  }

  /** Length of the well-formed UTF-8 character `s` starts with (RFC 3629, section 4), or 0. */
  function CharLength(s: string): (n: nat)
    ensures n <= 4 && n <= |s|
    ensures n > 0 ==> RuneStart(s[0]) && forall i | 0 < i < n :: Tail(s[i])
  {
    if s == "" then 0
    else
      var b := s[0] as int;
      if b <= 0x7F then 1
      else if |s| >= 2 && 0xC2 <= b <= 0xDF && Tail(s[1]) then 2
      else if |s| >= 3 && 0xE0 <= b <= 0xEF && Tail(s[1]) && Tail(s[2])
        && (b == 0xE0 ==> s[1] as int >= 0xA0) && (b == 0xED ==> s[1] as int <= 0x9F) then 3
      else if |s| >= 4 && 0xF0 <= b <= 0xF4 && Tail(s[1]) && Tail(s[2]) && Tail(s[3])
        && (b == 0xF0 ==> s[1] as int >= 0x90) && (b == 0xF4 ==> s[1] as int <= 0x8F) then 4
      else 0
  }

  predicate ValidUtf8(s: string)
    decreases |s|
  {
    s == "" || (CharLength(s) > 0 && ValidUtf8(s[CharLength(s)..]))
  }

  /** In a valid string a cut leaves a valid prefix exactly at the start of a character. */
  lemma {:induction false} ValidPrefix(s: string, k: nat)
    requires ValidUtf8(s) && k < |s|
    ensures ValidUtf8(s[..k]) <==> RuneStart(s[k])
    decreases k
  {
    var n := CharLength(s);
    if 0 < k < n {
      assert Tail(s[k]);
      assert CharLength(s[..k]) == 0;
    } else if n <= k {
      assert s[..k][n..] == s[n..][..k - n];
      assert CharLength(s[..k]) == n;
      ValidPrefix(s[n..], k - n);
    }
  }

  lemma {:induction false} StartNearby(s: string, k: nat)
    requires ValidUtf8(s) && k < |s|
    ensures exists j :: k - 3 <= j <= k && 0 <= j && RuneStart(s[j])
    decreases k
  {
    var n := CharLength(s);
    if k < n {
      assert RuneStart(s[0]);
    } else {
      StartNearby(s[n..], k - n);
      var j :| k - n - 3 <= j <= k - n && 0 <= j && RuneStart(s[n..][j]);
      assert RuneStart(s[n + j]);
    }
  }

  /** Truncation of a valid message that is too long keeps it valid, keeps as much as any
      valid prefix within the limit could, and gives up at most three bytes. */
  lemma TruncationKeepsUtf8(message: string, maxBytes: nat)
    requires ValidUtf8(message) && |message| > maxBytes
    ensures var r := Truncated(message, maxBytes);
            && r <= message && ValidUtf8(r) && maxBytes - 3 <= |r| <= maxBytes
            && forall k: nat | k <= maxBytes && ValidUtf8(message[..k]) :: k <= |r|
  {
    var e := CutAt(message, maxBytes);
    StartNearby(message, maxBytes);
    ValidPrefix(message, 0);
    ValidPrefix(message, e);
    forall k: nat | k <= maxBytes && ValidUtf8(message[..k]) ensures k <= e {
      ValidPrefix(message, k);
    }
  }

  // ---------------------------------------------------------------- normalization

  function Millis(t: int): int {
    t - t % MILLISECOND
  }

  /** A time difference, saturated at Go's largest duration. */
  function Since(later: int, earlier: int): int {
    var d := later - earlier;
    if d > MAX_DURATION then MAX_DURATION else if d < -MAX_DURATION - 1 then -MAX_DURATION - 1 else d
  }

  function Decimal(n: nat): string {
    if n < 10 then [('0' as int + n) as char] else Decimal(n / 10) + Decimal(n % 10)
  }

  /** `text` is the decimal numeral of `n`, without leading zeros. */
  predicate Reads(text: string, n: nat)
    decreases |text|
  {
    if |text| <= 1 then n <= 9 && text == ["0123456789"[n]]
    else n >= 10 && text[|text| - 1] == "0123456789"[n % 10] && Reads(text[..|text| - 1], n / 10)
  }

  lemma {:induction false} DecimalReads(n: nat)
    ensures Reads(Decimal(n), n)
  {
    if n >= 10 {
      DecimalReads(n / 10);
      DecimalReads(n % 10);
      var a, b := Decimal(n / 10), Decimal(n % 10);
      assert |b| == 1 && a != "";
      assert (a + b)[..|a + b| - 1] == a && (a + b)[|a + b| - 1] == b[0];
    }
  }

  /** The event time and the flags that go with it. */
  function StampedAt(log: Log, now: int): Log {
    if log.timestamp == 0 then
      log.(timestamp := Millis(now), attributes := log.attributes[TIMESTAMP_MISSING := "true"])
    else if log.timestamp > now + MAX_FUTURE_SKEW then
      log.(timestamp := Millis(now),
           attributes := log.attributes[TIMESTAMP_CORRECTED := "true"]
                         [TIMESTAMP_SKEW_MILLIS := Decimal(Since(log.timestamp, now) / MILLISECOND)])
    else log.(timestamp := Millis(log.timestamp))
  }

  function NormalizedFields(log: Log, now: int): Log {
    var stamped := StampedAt(log, now);
    stamped.(level := NormalizeLevel(log.level),
             ingestedAt := Millis(if log.ingestedAt == 0 then now else log.ingestedAt),
             message := Truncated(log.message, MAX_MESSAGE_LENGTH))
  }

  /** `clock` is what the system clock says; it stands in for a zero reference time. */
  method NormalizeFieldsAt(record: Log, reference: int, clock: int) returns (log: Log)
    ensures log == NormalizedFields(record, if reference == 0 then clock else reference)
  {
    log := record;
    var now := reference;
    if now == 0 {
      now := clock;
    }
    var nowMillis := Millis(now);
    log := log.(level := NormalizeLevel(log.level));
    var attributes := log.attributes;
    if log.timestamp == 0 {
      log := log.(timestamp := nowMillis);
      attributes := attributes[TIMESTAMP_MISSING := "true"];
    } else {
      var originalTimestamp := log.timestamp;
      if originalTimestamp > now + MAX_FUTURE_SKEW {
        var skew := Since(originalTimestamp, now);
        log := log.(timestamp := nowMillis);
        attributes := attributes[TIMESTAMP_CORRECTED := "true"];
        attributes := attributes[TIMESTAMP_SKEW_MILLIS := Decimal(skew / MILLISECOND)];
      } else {
        log := log.(timestamp := Millis(originalTimestamp));
      }
    }
    log := log.(attributes := attributes);
    if log.ingestedAt == 0 {
      log := log.(ingestedAt := nowMillis);
    } else {
      log := log.(ingestedAt := Millis(log.ingestedAt));
    }
    var message := TruncateMessage(log.message, MAX_MESSAGE_LENGTH);
    log := log.(message := message);
  }

  function Normalize(log: Log, now: int): Result<Log> {
    if Blank(log.service) then Err("service is required")
    else if Blank(log.host) then Err("host is required")
    else if Blank(log.env) then Err("env is required")
    else if Blank(log.message) then Err("message is required")
    else if log.retentionDays == 0 then Err("retention_days must be greater than zero")
    else Ok(NormalizedFields(log, now))
  }

  /** What normalization makes of the times: a missing event time and one more than five minutes
      ahead are replaced by the reference time and flagged, every time is cut to milliseconds, and
      the flagged lead is in milliseconds, bounded by the longest duration. Nothing else changes
      but the level and the length of the message. */
  lemma NormalizedMeaning(log: Log, now: int)
    ensures var r := NormalizedFields(log, now);
            && r == log.(timestamp := r.timestamp, ingestedAt := r.ingestedAt, attributes := r.attributes,
                         level := r.level, message := r.message)
            && r.level == NormalizeLevel(log.level) && r.message == Truncated(log.message, 16_384)
            && r.ingestedAt == (if log.ingestedAt == 0 then now - now % 1_000_000
                                else log.ingestedAt - log.ingestedAt % 1_000_000)
            && (log.timestamp == 0 ==>
                  && r.timestamp == now - now % 1_000_000
                  && r.attributes == log.attributes["timestamp_missing" := "true"])
            && (log.timestamp != 0 && log.timestamp <= now + 300_000_000_000 ==>
                  && r.timestamp == log.timestamp - log.timestamp % 1_000_000
                  && r.attributes == log.attributes)
            && (log.timestamp != 0 && log.timestamp > now + 300_000_000_000 ==>
                  && r.timestamp == now - now % 1_000_000
                  && "timestamp_skew_ms" in r.attributes
                  && r.attributes == log.attributes["timestamp_corrected" := "true"]
                                     ["timestamp_skew_ms" := r.attributes["timestamp_skew_ms"]]
                  && Reads(r.attributes["timestamp_skew_ms"],
                           if log.timestamp - now > 0x7FFF_FFFF_FFFF_FFFF then 9_223_372_036_854
                           else (log.timestamp - now) / 1_000_000))
  {
    hide NormalizeLevel, Truncated, Decimal, Reads;
    if log.timestamp != 0 && log.timestamp > now + 300_000_000_000 {
      DecimalReads(Since(log.timestamp, now) / 1_000_000);
    }
  }

  /** A time strictly inside the first millisecond, which truncation turns into "missing". */
  predicate LostByTruncation(t: int) {
    0 < t < MILLISECOND
  }

  lemma MillisTwice(t: int)
    ensures Millis(Millis(t)) == Millis(t) <= t && (Millis(t) == 0 <==> 0 <= t < MILLISECOND)
  {
  }

  lemma TruncatedTwice(message: string, maxBytes: nat)
    ensures Truncated(Truncated(message, maxBytes), maxBytes) == Truncated(message, maxBytes)
  {
  }

  /** Normalizing again later changes nothing, exactly when no supplied time lies strictly
      inside the first millisecond after the zero time. */
  lemma NormalizedTwice(log: Log, t1: int, t2: int)
    requires MILLISECOND <= t1 <= t2
    ensures NormalizedFields(NormalizedFields(log, t1), t2) == NormalizedFields(log, t1)
       <==> !LostByTruncation(log.timestamp) && !LostByTruncation(log.ingestedAt)
  {
    var once := NormalizedFields(log, t1);
    NormalizeLevelTwice(log.level);
    TruncatedTwice(log.message, MAX_MESSAGE_LENGTH);
    MillisTwice(t1);
    MillisTwice(t2);
    MillisTwice(log.timestamp);
    MillisTwice(log.ingestedAt);
    hide NormalizeLevel, Truncated, Decimal, Millis, Since;
    var twice := NormalizedFields(once, t2);
    assert twice.level == once.level && twice.message == once.message;
    if LostByTruncation(log.timestamp) {
      assert once.timestamp == 0 && twice.timestamp != 0;
    } else {
      assert once.timestamp != 0 && once.timestamp <= t2 + MAX_FUTURE_SKEW;
    }
  }

  /** With the required fields checked as well, one more thing can change: a message whose
      kept part is blank is refused the second time. */
  lemma NormalizeTwice(log: Log, t1: int, t2: int)
    requires MILLISECOND <= t1 <= t2 && Normalize(log, t1).Ok?
    ensures var r := Normalize(log, t1).value;
            Normalize(r, t2) == Ok(r) <==>
              !LostByTruncation(log.timestamp) && !LostByTruncation(log.ingestedAt)
              && !Blank(Truncated(log.message, MAX_MESSAGE_LENGTH))
  {
    hide Normalize, NormalizedFields, Blank, Truncated, LostByTruncation;
    var r := NormalizedFields(log, t1);
    NormalizeAccepts(log, t1);
    NormalizeAccepts(r, t2);
    NormalizedTwice(log, t1, t2);
    FieldsKept(log, t1);
  }

  lemma NormalizeAccepts(log: Log, now: int)
    ensures Normalize(log, now).Ok? <==>
      !Blank(log.service) && !Blank(log.host) && !Blank(log.env) && !Blank(log.message) && log.retentionDays > 0
    ensures Normalize(log, now).Ok? ==> Normalize(log, now).value == NormalizedFields(log, now)
  {
    hide Blank, NormalizedFields;
  }

  lemma FieldsKept(log: Log, now: int)
    ensures var r := NormalizedFields(log, now);
            && r.service == log.service && r.host == log.host && r.env == log.env
            && r.retentionDays == log.retentionDays && r.message == Truncated(log.message, MAX_MESSAGE_LENGTH)
  {
  }

  lemma {:induction false} SpacesBlank(n: nat)
    ensures Blank(seq(n, _ => ' '))
  {
    var s := seq(n, _ => ' ');
    if n > 0 {
      SpacesBlank(n - 1);
      assert s[1..] == seq(n - 1, _ => ' ');
    }
  }

  /** Such a message exists: with the other fields in order the first normalization accepts the
      record, and normalizing the result again, at whatever time, refuses it. */
  lemma BlankAfterTruncation(log: Log, now: int, later: int)
    requires log.message == seq(MAX_MESSAGE_LENGTH, _ => ' ') + "x"
    requires !Blank(log.service) && !Blank(log.host) && !Blank(log.env) && log.retentionDays > 0
    ensures Normalize(log, now).Ok? && Normalize(log, now).value.message == seq(MAX_MESSAGE_LENGTH, _ => ' ')
    ensures Normalize(Normalize(log, now).value, later).Err?
  {
    hide Blank, NormalizedFields;
    SpacesBlank(MAX_MESSAGE_LENGTH);
    SpacesEnd(MAX_MESSAGE_LENGTH);
    SpacesCut(log.message);
    NormalizeAccepts(log, now);
    FieldsKept(log, now);
    NormalizeAccepts(NormalizedFields(log, now), later);
  }

  lemma SpacesCut(message: string)
    requires message == seq(MAX_MESSAGE_LENGTH, _ => ' ') + "x"
    ensures Truncated(message, MAX_MESSAGE_LENGTH) == seq(MAX_MESSAGE_LENGTH, _ => ' ')
  {
    assert message[..MAX_MESSAGE_LENGTH] == seq(MAX_MESSAGE_LENGTH, _ => ' ');
    assert RuneStart(message[MAX_MESSAGE_LENGTH]);
  }

  /** Spaces before a letter are not all there is. */
  lemma {:induction false} SpacesEnd(n: nat)
    ensures !Blank(seq(n, _ => ' ') + "x")
  {
    var s := seq(n, _ => ' ') + "x";
    if n > 0 {
      SpacesEnd(n - 1);
      assert s[1..] == seq(n - 1, _ => ' ') + "x";
    }
  }
}
