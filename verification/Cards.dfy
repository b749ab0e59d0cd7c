/**
 Card-number redaction: a greedy scanner for card-shaped runs of digits, the
 Luhn test, and the in-place rewriting of the matches from right to left.
 */
module Cards {
  import opened Luhn

  const MASK := "[REDACTED]"

  // ---------------------------------------------------------------- the scanner

  /** `s` goes on with an optional separator and a digit; the length of that group, or 0. */
  function Group(s: string): (n: nat)
    ensures n <= 2 && n <= |s|
  {
    if s != "" && IsDigit(s[0]) then 1
    else if |s| >= 2 && IsSeparator(s[0]) && IsDigit(s[1]) then 2
    else 0
  }

  /** Greedy repetition of the group, at most `k` times: how many groups, how many bytes. */
  function Count(s: string, k: nat): (n: nat)
    ensures n <= k
    decreases |s|
  {
    if k == 0 || Group(s) == 0 then 0 else 1 + Count(s[Group(s)..], k - 1)
  }

  function Span(s: string, k: nat): (n: nat)
    ensures n <= |s|
    decreases |s|
  {
    if k == 0 || Group(s) == 0 then 0 else Group(s) + Span(s[Group(s)..], k - 1)
  }

  /** Length of the card-shaped match at the start of `s`, a digit and 12 to 18 groups; 0 if none. */
  function Match(s: string): (n: nat)
    ensures n <= |s|
  {
    if s != "" && IsDigit(s[0]) && Count(s[1..], 18) >= 12 then 1 + Span(s[1..], 18) else 0
  }

  /** The leftmost, non-overlapping matches from offset `i` on. */
  function FindAll(s: string, i: nat): seq<(nat, nat)>
    requires i <= |s|
    decreases |s| - i
  {
    if i == |s| then []
    else
      var n := Match(s[i..]);
      if n > 0 then [(i, i + n)] + FindAll(s, i + n) else FindAll(s, i + 1)
  }

  // ---------------------------------------------------------------- simultaneous replacement

  predicate DigitAt(s: string, i: int) {
    0 <= i < |s| && IsDigit(s[i])
  }

  /** A match is masked when it is isolated in the original text and passes the Luhn test. */
  predicate Masked(s: string, m: (nat, nat))
    requires m.0 <= m.1 <= |s|
  {
    !DigitAt(s, m.0 - 1) && !DigitAt(s, m.1) && PassesLuhn(s[m.0..m.1])
  }

  function Shown(s: string, m: (nat, nat)): string
    requires m.0 <= m.1 <= |s|
  {
    if Masked(s, m) then MASK else s[m.0..m.1]
  }

  predicate InOrder(s: string, ms: seq<(nat, nat)>, from: nat) {
    if ms == [] then from <= |s|
    else from <= ms[0].0 < ms[0].1 <= |s| && InOrder(s, ms[1..], ms[0].1)
  }

  /** All matches judged on the original text and replaced at once. */
  function Replace(s: string, ms: seq<(nat, nat)>, from: nat): string
    requires InOrder(s, ms, from)
  {
    if ms == [] then s[from..]
    else
      s[from..ms[0].0] + (Shown(s, ms[0]) + Replace(s, ms[1..], ms[0].1))
  }

  lemma {:induction false} FindAllInOrder(s: string, i: nat)
    requires i <= |s|
    ensures InOrder(s, FindAll(s, i), i)
    ensures FindAll(s, i) != [] && i < |s| && Match(s[i..]) == 0 ==> i < FindAll(s, i)[0].0
    decreases |s| - i
  {
    hide Match;
    if i < |s| {
      var n := Match(s[i..]);
      if n > 0 {
        FindAllInOrder(s, i + n);
        assert FindAll(s, i) == [(i, i + n)] + FindAll(s, i + n);
        assert FindAll(s, i)[0] == (i, i + n) && FindAll(s, i)[1..] == FindAll(s, i + n);
      } else {
        FindAllInOrder(s, i + 1);
      }
    }
  }

  function Redacted(s: string): string {
    FindAllInOrder(s, 0);
    Replace(s, FindAll(s, 0), 0)
  }

  // ---------------------------------------------------------------- one pass over a suffix

  /** The same replacement as one left-to-right pass; `d` tells whether a digit came before. */
  function Pass(d: bool, u: string): string
    decreases |u|
  {
    if u == "" then ""
    else
      var n := Match(u);
      if n == 0 then [u[0]] + Pass(IsDigit(u[0]), u[1..])
      else Kept(d, u, n) + Pass(true, u[n..])
  }

  function Kept(d: bool, u: string, n: nat): string
    requires n <= |u|
  {
    if d || DigitAt(u, n) || !PassesLuhn(u[..n]) then u[..n] else MASK
  }

  lemma ShownIsKept(s: string, i: nat, n: nat)
    requires i + n <= |s|
    ensures Shown(s, (i, i + n)) == Kept(DigitAt(s, i - 1), s[i..], n)
  {
    assert s[i..][..n] == s[i..i + n];
  }

  lemma {:induction false} SpanEndsInDigit(s: string, k: nat)
    ensures Span(s, k) > 0 ==> IsDigit(s[Span(s, k) - 1])
    ensures Span(s, k) == 0 <==> Count(s, k) == 0
    decreases k
  {
    if k > 0 && Group(s) > 0 { SpanEndsInDigit(s[Group(s)..], k - 1); }
  }

  lemma MatchEndsInDigit(u: string)
    requires Match(u) > 0
    ensures IsDigit(u[Match(u) - 1])
  {
    SpanEndsInDigit(u[1..], 18);
  }

  lemma ReplaceSkip(s: string, ms: seq<(nat, nat)>, i: nat)
    requires i < |s| && InOrder(s, ms, i + 1)
    ensures InOrder(s, ms, i) && Replace(s, ms, i) == [s[i]] + Replace(s, ms, i + 1)
  {
    hide Shown;
    if ms == [] {
      assert s[i..] == [s[i]] + s[i + 1..];
    } else {
      var x, y := s[i + 1..ms[0].0], Shown(s, ms[0]) + Replace(s, ms[1..], ms[0].1);
      assert s[i..ms[0].0] == [s[i]] + x;
      assert ([s[i]] + x) + y == [s[i]] + (x + y);
    }
  }

  lemma ReplaceMatch(s: string, ms: seq<(nat, nat)>, i: nat, n: nat)
    requires i + n <= |s| && n > 0 && InOrder(s, ms, i + n)
    ensures InOrder(s, [(i, i + n)] + ms, i)
    ensures Replace(s, [(i, i + n)] + ms, i)
         == Shown(s, (i, i + n)) + Replace(s, ms, i + n)
  {
    hide Shown;
    var all := [(i, i + n)] + ms;
    assert all[0] == (i, i + n) && all[1..] == ms && s[i..i] == "";
    var shown, rest := Shown(s, (i, i + n)), Replace(s, ms, i + n);
    assert "" + (shown + rest) == shown + rest;
  }

  lemma ReplaceNone(s: string, i: nat)
    requires i <= |s|
    ensures InOrder(s, [], i) && Replace(s, [], i) == s[i..]
  {
  }

  /** The pass and the simultaneous replacement agree. */
  lemma {:induction false} PassIsReplace(s: string, i: nat)
    requires i <= |s|
    ensures InOrder(s, FindAll(s, i), i)
    ensures Pass(DigitAt(s, i - 1), s[i..]) == Replace(s, FindAll(s, i), i)
    decreases |s| - i
  {
    hide Match, Shown, Kept, Replace, DigitAt;
    FindAllInOrder(s, i);
    if i == |s| {
      ReplaceNone(s, i);
    } else if Match(s[i..]) > 0 {
      var n := Match(s[i..]);
      PassIsReplace(s, i + n);
      PassMatch(s, i, n);
      ReplaceMatch(s, FindAll(s, i + n), i, n);
    } else {
      PassIsReplace(s, i + 1);
      PassSkip(s, i);
      ReplaceSkip(s, FindAll(s, i + 1), i);
    }
  }

  lemma PassMatch(s: string, i: nat, n: nat)
    requires i < |s| && n == Match(s[i..]) > 0
    ensures i + n <= |s| && InOrder(s, FindAll(s, i + n), i + n)
    ensures Pass(DigitAt(s, i - 1), s[i..]) == Shown(s, (i, i + n)) + Pass(DigitAt(s, i + n - 1), s[i + n..])
  {
    hide Match, Shown, Kept, Replace, FindAll, InOrder;
    FindAllInOrder(s, i + n);
    MatchEndsInDigit(s[i..]);
    assert s[i..][n..] == s[i + n..];
    ShownIsKept(s, i, n);
  }

  lemma PassSkip(s: string, i: nat)
    requires i < |s| && Match(s[i..]) == 0
    ensures Pass(DigitAt(s, i - 1), s[i..]) == [s[i]] + Pass(DigitAt(s, i), s[i + 1..])
  {
    hide Match, Kept;
    assert s[i..][1..] == s[i + 1..];
  }

  // ---------------------------------------------------------------- masking cannot realign the scanner

  /** Greedy repetition depends only on the groups it takes and on what stops it. */
  lemma {:induction false} SpanLocal(x: string, z: string, y: string, k: nat)
    requires Span(x + z, k) == |x|
    requires Count(x + z, k) == k || Group(y) == 0
    ensures Span(x + y, k) == |x| && Count(x + y, k) == Count(x + z, k)
    decreases k
  {
    if x == "" {
      assert x + z == z && x + y == y;
      SpanEndsInDigit(z, k);
    } else {
      var g := Group(x + z);
      assert g > 0 && g <= |x|;
      assert (x + z)[g..] == x[g..] + z && (x + y)[g..] == x[g..] + y;
      assert Group(x + y) == g;
      SpanLocal(x[g..], z, y, k - 1);
    }
  }

  /** Where a greedy repetition ends early, no further group starts. */
  lemma {:induction false} SpanStops(s: string, k: nat)
    ensures Count(s, k) == k || Group(s[Span(s, k)..]) == 0
    decreases k
  {
    hide Group;
    if k > 0 && Group(s) > 0 {
      var t := s[Group(s)..];
      SpanStops(t, k - 1);
      assert t[Span(t, k - 1)..] == s[Span(s, k)..];
    } else {
      assert s[0..] == s;
    }
  }

  lemma PassHead(d: bool, u: string)
    ensures u == "" <==> Pass(d, u) == ""
    ensures d && u != "" ==> Pass(d, u)[0] == u[0]
    ensures u != "" && !IsDigit(u[0]) ==> Pass(d, u) == [u[0]] + Pass(false, u[1..])
    ensures u != "" ==> (IsDigit(Pass(d, u)[0]) ==> IsDigit(u[0]))
  {
  }

  /** What stops the scanner in `u` still stops it in the rewritten `u`. */
  lemma PassStops(d: bool, u: string)
    requires Group(u) == 0
    ensures Group(Pass(d, u)) == 0
  {
    PassHead(d, u);
    if u != "" { PassHead(false, u[1..]); }
  }

  /** A repetition that ended below its bound ends there for every larger bound. */
  lemma {:induction false} CountBound(s: string, m: nat)
    requires Count(s, m) < m
    ensures Count(s, m + 1) == Count(s, m) && Span(s, m + 1) == Span(s, m)
    decreases m
  {
    if Group(s) > 0 { CountBound(s[Group(s)..], m - 1); }
  }

  /** A digit that starts no match. */
  predicate ShortRun(u: string) {
    u != "" && IsDigit(u[0]) && Count(u[1..], 18) < 12
  }

  /** The digit after the next group starts no match either, and ends where `u`'s run ends. */
  lemma ShortRunNext(u: string)
    requires ShortRun(u)
    ensures Group(u[1..]) == 0 ==> Span(u[1..], 18) == 0
    ensures Group(u[1..]) > 0 ==>
              var v := u[Group(u[1..])..];
              ShortRun(v) && Span(u[1..], 18) == Group(u[1..]) + Span(v[1..], 18)
  {
    var t, g := u[1..], Group(u[1..]);
    if g > 0 {
      assert u[g..][1..] == t[g..];
      CountBound(t[g..], 17);
    }
  }

  /** A digit that starts no match is copied, and so is the separator behind it. */
  lemma ShortRunHead(d: bool, u: string)
    requires ShortRun(u)
    ensures Pass(d, u) == [u[0]] + Pass(true, u[1..])
    ensures Group(u[1..]) == 2 ==> Pass(true, u[1..]) == [u[1]] + Pass(false, u[2..])
  {
    var t := u[1..];
    if Group(t) == 2 {
      PassHead(true, t);
      assert t[1..] == u[2..];
    }
  }

  /** A run of digits too short for a match is copied unchanged. */
  lemma {:induction false} ShortRunCopied(d: bool, u: string)
    requires ShortRun(u)
    ensures var n := 1 + Span(u[1..], 18); Pass(d, u) == u[..n] + Pass(true, u[n..])
    decreases |u|
  {
    var t, g := u[1..], Group(u[1..]);
    ShortRunNext(u);
    ShortRunHead(d, u);
    hide ShortRun, Group, Span, Pass;
    if g == 0 {
      assert u[..1] == [u[0]] && u[1..] == t;
    } else {
      var v := u[g..];
      ShortRunCopied(g == 1, v);
      Step(u, v, g, 1 + Span(v[1..], 18), Pass(true, v[1 + Span(v[1..], 18)..]));
    }
  }

  lemma Step(u: string, v: string, g: nat, m: nat, rest: string)
    requires 1 <= g <= 2 && g <= |u| && v == u[g..] && m <= |v|
    ensures u[..g] + (v[..m] + rest) == u[..g + m] + rest && v[m..] == u[g + m..]
    ensures g == 1 ==> u[..g] == [u[0]]
    ensures g == 2 ==> [u[0]] + ([u[1]] + (v[..m] + rest)) == u[..g] + (v[..m] + rest)
  {
  }

  // ---------------------------------------------------------------- idempotence

  /** Rewriting what follows a match or a short run leaves its extent alone. */
  lemma SpanKept(u: string, d: bool)
    requires u != ""
    ensures var n := 1 + Span(u[1..], 18);
            var v := u[..n] + Pass(d, u[n..]);
            && v[0] == u[0] && Span(v[1..], 18) == n - 1 && Count(v[1..], 18) == Count(u[1..], 18)
            && v[..n] == u[..n] && v[n..] == Pass(d, u[n..])
  {
    hide Group, Pass;
    var t := u[1..];
    var m := Span(t, 18);
    var x, z := t[..m], t[m..];
    assert t == x + z && z == u[1 + m..];
    SpanStops(t, 18);
    if Count(t, 18) != 18 { PassStops(d, z); }
    SpanLocal(x, z, Pass(d, z), 18);
    var v := u[..1 + m] + Pass(d, z);
    assert v[1..] == x + Pass(d, z);
  }

  /** A second pass changes nothing: every match it finds is one the first pass kept. */
  lemma {:induction false} PassTwice(d: bool, u: string)
    ensures Pass(d, Pass(d, u)) == Pass(d, u)
    decreases |u|
  {
    if u != "" {
      var n := Match(u);
      if n > 0 {
        PassTwiceMatch(d, u);
      } else if IsDigit(u[0]) {
        ShortRunCopied(d, u);
        var m := 1 + Span(u[1..], 18);
        SpanKept(u, true);
        PassTwice(true, u[m..]);
        ShortRunCopied(d, Pass(d, u));
      } else {
        PassTwice(false, u[1..]);
        assert ([u[0]] + Pass(false, u[1..]))[1..] == Pass(false, u[1..]);
      }
    }
  }

  lemma MatchKept(u: string)
    requires Match(u) > 0
    ensures var n := Match(u); Match(u[..n] + Pass(true, u[n..])) == n
  {
    SpanKept(u, true);
  }

  lemma {:induction false} PassTwiceMatch(d: bool, u: string)
    requires Match(u) > 0
    ensures Pass(d, Pass(d, u)) == Pass(d, u)
    decreases |u|, 0
  {
    hide Match, PassesLuhn;
    var n := Match(u);
    var rest := u[n..];
    PassTwice(true, rest);
    PassHead(true, rest);
    if Kept(d, u, n) == u[..n] {
      MatchKept(u);
      KeptAgain(d, u, n);
    } else {
      NoDigitNext(Pass(true, rest));
      CopiedWithoutDigits(d, MASK, Pass(true, rest));
    }
  }

  /** A match that was kept is kept again. */
  lemma KeptAgain(d: bool, u: string, n: nat)
    requires 0 < n <= |u| && n == Match(u) && Kept(d, u, n) == u[..n]
    ensures var v := u[..n] + Pass(true, u[n..]);
            Kept(d, v, n) == v[..n] == u[..n] && v[n..] == Pass(true, u[n..])
  {
    MatchEndsInDigit(u);
    hide Match, PassesLuhn;
    PassHead(true, u[n..]);
    var v := u[..n] + Pass(true, u[n..]);
    assert DigitAt(v, n) == DigitAt(u, n) && v[..n] == u[..n];
  }

  lemma {:induction false} CopiedWithoutDigits(d: bool, m: string, w: string)
    requires m != "" && forall c | c in m :: !IsDigit(c)
    ensures Pass(d, m + w) == m + Pass(false, w)
    decreases |m|
  {
    var v, rest := m + w, Pass(false, w);
    hide Pass, Match, IsDigit;
    HeadThenRest(m, w);
    HeadThenRest(m, rest);
    assert m[0] in m;
    PassedOver(d, v);
    if |m| == 1 {
      assert m[1..] + w == w && m[1..] + rest == rest;
    } else {
      assert forall c | c in m[1..] :: c in m;
      CopiedWithoutDigits(false, m[1..], w);
    }
  }

  lemma HeadThenRest(m: string, w: string)
    requires m != ""
    ensures (m + w)[0] == m[0] && (m + w)[1..] == m[1..] + w && m + w == [m[0]] + (m[1..] + w)
  {
  }

  lemma PassedOver(d: bool, u: string)
    requires u != "" && !IsDigit(u[0])
    ensures Pass(d, u) == [u[0]] + Pass(false, u[1..])
  {
    hide Kept;
  }

  lemma NoDigitNext(u: string)
    requires !DigitAt(u, 0)
    ensures Pass(true, u) == Pass(false, u)
  {
  }

  /** Redacting cards twice equals redacting them once, on every message. */
  lemma RedactedTwice(s: string)
    ensures Redacted(Redacted(s)) == Redacted(s)
  {
    PassIsReplace(s, 0);
    assert s[0..] == s;
    var t := Redacted(s);
    PassIsReplace(t, 0);
    assert t[0..] == t;
    PassTwice(false, s);
  }

  // ---------------------------------------------------------------- the rewriting loop

  /** `m` is the match that begins at its first position; it ends in a digit. */
  predicate Found(s: string, m: (nat, nat)) {
    m.0 < m.1 <= |s| && m.1 == m.0 + Match(s[m.0..]) && DigitAt(s, m.1 - 1)
  }

  lemma MatchAt(s: string, i: nat)
    requires i < |s| && Match(s[i..]) > 0
    ensures Found(s, (i, i + Match(s[i..])))
  {
    MatchEndsInDigit(s[i..]);
    hide Match;
  }

  lemma {:induction false} FindAllMatches(s: string, i: nat)
    requires i <= |s|
    ensures forall m | m in FindAll(s, i) :: i <= m.0 && Found(s, m)
    decreases |s| - i
  {
    hide Match, DigitAt, Found;
    if i < |s| {
      var n := Match(s[i..]);
      if n > 0 {
        MatchAt(s, i);
        FindAllMatches(s, i + n);
        assert FindAll(s, i) == [(i, i + n)] + FindAll(s, i + n);
      } else {
        FindAllMatches(s, i + 1);
      }
    }
  }

  /** Matches are found one after the other: the rest is what the scanner finds behind. */
  lemma {:induction false} FindAllRest(s: string, i: nat, k: nat)
    requires i <= |s| && k < |FindAll(s, i)|
    ensures FindAll(s, i)[k].1 <= |s| && FindAll(s, i)[k + 1..] == FindAll(s, FindAll(s, i)[k].1)
    decreases |s| - i
  {
    hide Match;
    var n := Match(s[i..]);
    if n == 0 {
      FindAllRest(s, i + 1, k);
    } else {
      var rest := FindAll(s, i + n);
      assert FindAll(s, i) == [(i, i + n)] + rest;
      hide FindAll;
      if k > 0 {
        FindAllRest(s, i + n, k - 1);
        assert ([(i, i + n)] + rest)[k + 1..] == rest[k..];
      } else {
        assert ([(i, i + n)] + rest)[1..] == rest;
      }
    }
  }

  /** Of two touching matches the later one is never masked, so the byte behind a match
      is a digit after the rewriting exactly when it was one before. */
  lemma TouchingNeverMasked(s: string, e: nat)
    requires e <= |s| && DigitAt(s, e - 1)
    ensures InOrder(s, FindAll(s, e), e)
    ensures DigitAt(s[..e] + Replace(s, FindAll(s, e), e), e) == DigitAt(s, e)
    ensures FindAll(s, e) != [] && FindAll(s, e)[0].0 == e ==> !Masked(s, FindAll(s, e)[0])
  {
    PassIsReplace(s, e);
    PassHead(true, s[e..]);
  }

  /** One step of the loop below: around the match the message still reads like the original. */
  lemma RewriteStep(s: string, m: (nat, nat), rest: seq<(nat, nat)>, before: nat, message: string)
    requires InOrder(s, [m] + rest, before) && InOrder(s, rest, m.1)
    requires rest == FindAll(s, m.1) && DigitAt(s, m.1 - 1)
    requires message == s[..m.1] + Replace(s, rest, m.1)
    ensures before <= m.0 < m.1 <= |message|
    ensures DigitAt(message, m.0 - 1) == DigitAt(s, m.0 - 1) && DigitAt(message, m.1) == DigitAt(s, m.1)
    ensures message[m.0..m.1] == s[m.0..m.1]
    ensures message == message[..m.0] + message[m.0..m.1] + message[m.1..]
    ensures s[..before] + Replace(s, [m] + rest, before) == message[..m.0] + Shown(s, m) + message[m.1..]
  {
    hide Match, Shown, FindAll, IsDigit;
    assert ([m] + rest)[1..] == rest;
    TouchingNeverMasked(s, m.1);
    var tail := Replace(s, rest, m.1);
    assert Replace(s, [m] + rest, before) == s[before..m.0] + (Shown(s, m) + tail);
    hide Replace, InOrder;
    Splice(s, m, before, tail, Shown(s, m));
  }

  lemma Splice(s: string, m: (nat, nat), before: nat, tail: string, shown: string)
    requires before <= m.0 < m.1 <= |s|
    ensures var message := s[..m.1] + tail;
            && message[..m.0] == s[..m.0] && message[m.0..m.1] == s[m.0..m.1] && message[m.1..] == tail
            && (m.0 > 0 ==> message[m.0 - 1] == s[m.0 - 1])
            && message == message[..m.0] + message[m.0..m.1] + message[m.1..]
            && s[..before] + (s[before..m.0] + (shown + tail)) == message[..m.0] + shown + message[m.1..]
  {
    var message := s[..m.1] + tail;
    assert s[..before] + s[before..m.0] == s[..m.0];
    assert s[..before] + (s[before..m.0] + (shown + tail)) == (s[..before] + s[before..m.0]) + (shown + tail);
  }

  function EndBefore(ms: seq<(nat, nat)>, i: nat): nat
    requires i <= |ms|
  {
    if i == 0 then 0 else ms[i - 1].1
  }

  /** The message once the matches from index `i` on have been dealt with. */
  predicate Rewritten(s: string, i: nat, message: string) {
    var ms := FindAll(s, 0);
    i <= |ms| && EndBefore(ms, i) <= |s| && InOrder(s, ms[i..], EndBefore(ms, i))
    && message == s[..EndBefore(ms, i)] + Replace(s, ms[i..], EndBefore(ms, i))
  }

  lemma RewrittenStart(s: string)
    ensures Rewritten(s, |FindAll(s, 0)|, s)
  {
    var ms := FindAll(s, 0);
    FindAllMatches(s, 0);
    ReplaceNone(s, EndBefore(ms, |ms|));
    assert ms[|ms|..] == [];
  }

  lemma RewrittenEnd(s: string, message: string)
    requires Rewritten(s, 0, message)
    ensures message == Redacted(s)
  {
    var ms := FindAll(s, 0);
    assert ms[0..] == ms && s[..0] == "";
  }

  lemma RewrittenStep(s: string, i: nat, message: string)
    requires i < |FindAll(s, 0)| && Rewritten(s, i + 1, message)
    ensures var m := FindAll(s, 0)[i];
            && m.0 < m.1 <= |message| && m.1 <= |s|
            && DigitAt(message, m.0 - 1) == DigitAt(s, m.0 - 1) && DigitAt(message, m.1) == DigitAt(s, m.1)
            && message[m.0..m.1] == s[m.0..m.1]
            && message == message[..m.0] + message[m.0..m.1] + message[m.1..]
            && Rewritten(s, i, message[..m.0] + Shown(s, m) + message[m.1..])
  {
    hide Match, Shown, Replace, IsDigit, InOrder, FindAll;
    var ms := FindAll(s, 0);
    FindAllInOrder(s, 0);
    FindAllMatches(s, 0);
    FindAllRest(s, 0, i);
    InOrderAfter(s, ms, 0, i);
    if i > 0 { FindAllRest(s, 0, i - 1); }
    assert ms[i..] == [ms[i]] + ms[i + 1..];
    RewriteStep(s, ms[i], ms[i + 1..], EndBefore(ms, i), message);
  }

  /** The source's loop: matches are masked from right to left, and the bytes around a
      match are read from the message as rewritten so far. */
  method RedactCardNumbers(original: string) returns (message: string)
    ensures message == Redacted(original)
  {
    hide Match, Shown, FindAll, PassesLuhn, Rewritten, Redacted;
    message := original;
    var matches := FindAll(original, 0);
    RewrittenStart(original);
    var i := |matches|;
    while i > 0
      invariant 0 <= i <= |matches|
      invariant Rewritten(original, i, message)
    {
      i := i - 1;
      var (start, end) := matches[i];
      RewrittenStep(original, i, message);
      ShownWhen(original, matches[i]);
      if (start > 0 && IsDigit(message[start - 1])) || (end < |message| && IsDigit(message[end])) {
        continue;
      }
      var passes := CheckLuhn(message[start..end]);
      if !passes {
        continue;
      }
      message := message[..start] + MASK + message[end..];
    }
    RewrittenEnd(original, message);
  }

  lemma ShownWhen(s: string, m: (nat, nat))
    requires m.0 <= m.1 <= |s|
    ensures Shown(s, m) == if !DigitAt(s, m.0 - 1) && !DigitAt(s, m.1) && PassesLuhn(s[m.0..m.1]) then MASK
                           else s[m.0..m.1]
  {
  }

  lemma {:induction false} InOrderAfter(s: string, ms: seq<(nat, nat)>, from: nat, i: nat)
    requires i < |ms| && InOrder(s, ms, from)
    ensures InOrder(s, ms[i..], if i == 0 then from else ms[i - 1].1)
    decreases i
  {
    if i == 0 {
      assert ms[0..] == ms;
    } else {
      InOrderAfter(s, ms[1..], ms[0].1, i - 1);
      assert ms[1..][i - 1..] == ms[i..];
    }
  }
}
