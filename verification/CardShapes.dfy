/**
 What the card scanner matches and masks, said without the scanner: the texts
 woven from digits with at most one space or hyphen between neighbours.
 */
module CardShapes {
  import opened Luhn
  import opened Cards

  // ---------------------------------------------------------------- the shape

  predicate Grouped(s: string, ds: seq<Digit>, gaps: seq<string>) {
    && |gaps| == |ds| + 1 && gaps[|ds|] == ""
    && (forall i | 0 <= i < |gaps| :: gaps[i] == "" || gaps[i] == " " || gaps[i] == "-")
    && s == Woven(ds, gaps)
  }

  /** `s` is the digits `ds` with nothing, a space or a hyphen between neighbours. */
  predicate Shaped(s: string, ds: seq<Digit>, gaps: seq<string>) {
    ds != [] && Grouped(s, ds, gaps) && gaps[0] == ""
  }

  ghost predicate CardShaped(s: string) {
    exists ds, gaps :: Shaped(s, ds, gaps) && 13 <= |ds| <= 19
  }

  /** The first `n` bytes of `u` are the longest card-shaped text at its start. */
  ghost predicate Longest(u: string, n: nat) {
    n <= |u| && CardShaped(u[..n]) && forall k | n < k <= |u| :: !CardShaped(u[..k])
  }

  ghost predicate NoCard(u: string) {
    forall k | 0 <= k <= |u| :: !CardShaped(u[..k])
  }

  predicate NoDigit(s: string) {
    forall c | c in s :: !('0' <= c <= '9')
  }

  // ---------------------------------------------------------------- what the scanner matches

  lemma ShapedStep(s: string, ds: seq<Digit>, gaps: seq<string>, post: string)
    requires Shaped(s, ds, gaps)
    ensures s != "" && IsDigit(s[0]) && Grouped(s[1..], ds[1..], gaps[1..])
    ensures (s + post)[0] == s[0] && (s + post)[1..] == s[1..] + post
  {
    DigitWritten(ds[0]);
    var rest := Woven(ds[1..], gaps[1..]);
    assert s == [] + (["0123456789"[ds[0]]] + rest);
    assert s[1..] == rest;
  }

  lemma GroupedStep(s: string, ds: seq<Digit>, gaps: seq<string>, post: string)
    requires Grouped(s, ds, gaps) && ds != []
    ensures var g := Group(s + post);
            && 0 < g <= |s| && Grouped(s[g..], ds[1..], gaps[1..]) && (s + post)[g..] == s[g..] + post
  {
    DigitWritten(ds[0]);
    var rest := Woven(ds[1..], gaps[1..]);
    var c := "0123456789"[ds[0]];
    assert s == gaps[0] + ([c] + rest);
    assert s[|gaps[0]| + 1..] == rest;
    assert (s + post)[|gaps[0]|] == c;
    if gaps[0] != "" { assert (s + post)[0] == gaps[0][0]; }
  }

  lemma GroupedGaps(s: string, ds: seq<Digit>, gaps: seq<string>)
    requires Grouped(s, ds, gaps)
    ensures |gaps| == |ds| + 1
  {
  }

  lemma GroupedNone(s: string, ds: seq<Digit>, gaps: seq<string>)
    requires Grouped(s, ds, gaps) && ds == []
    ensures s == ""
  {
  }

  /** The scanner takes all groups of a text when nothing behind it goes on. */
  lemma {:induction false} GroupedScan(s: string, ds: seq<Digit>, gaps: seq<string>, post: string, k: nat)
    requires Grouped(s, ds, gaps) && |ds| <= k && (|ds| == k || Group(post) == 0)
    ensures Count(s + post, k) == |ds| && Span(s + post, k) == |s|
    decreases |ds|
  {
    hide Grouped, Group;
    if ds == [] {
      GroupedNone(s, ds, gaps);
      assert s + post == post;
    } else {
      var g := Group(s + post);
      GroupedGaps(s, ds, gaps);
      GroupedStep(s, ds, gaps, post);
      GroupedScan(s[g..], ds[1..], gaps[1..], post, k - 1);
    }
  }

  /** Whatever stands behind it, the scanner takes no fewer groups than a text has. */
  lemma {:induction false} GroupedAtMost(s: string, ds: seq<Digit>, gaps: seq<string>, post: string, k: nat)
    requires Grouped(s, ds, gaps) && |ds| <= k
    ensures |ds| <= Count(s + post, k) && |s| <= Span(s + post, k)
    decreases |ds|
  {
    hide Grouped, Group;
    if ds == [] {
      GroupedNone(s, ds, gaps);
    } else {
      var g := Group(s + post);
      GroupedGaps(s, ds, gaps);
      GroupedStep(s, ds, gaps, post);
      GroupedAtMost(s[g..], ds[1..], gaps[1..], post, k - 1);
    }
  }

  lemma GroupedMore(t: string, n: nat, ds: seq<Digit>, gaps: seq<string>)
    returns (all: seq<Digit>, allGaps: seq<string>)
    requires Group(t) > 0 && Group(t) + n <= |t| && Grouped(t[Group(t)..][..n], ds, gaps)
    ensures Grouped(t[..Group(t) + n], all, allGaps) && |all| == |ds| + 1
  {
    var g := Group(t);
    var d: Digit := Value(t[g - 1]);
    all, allGaps := [d] + ds, [t[..g - 1]] + gaps;
    assert all[1..] == ds && allGaps[1..] == gaps && allGaps[|all|] == gaps[|ds|];
    assert "0123456789"[d] == t[g - 1];
    assert t[..g + n] == t[..g - 1] + ([t[g - 1]] + t[g..][..n]);
    assert t[..g - 1] == "" || t[..g - 1] == " " || t[..g - 1] == "-";
  }

  /** What the scanner takes is grouped. */
  lemma {:induction false} SpanGrouped(t: string, k: nat) returns (ds: seq<Digit>, gaps: seq<string>)
    ensures Grouped(t[..Span(t, k)], ds, gaps) && |ds| == Count(t, k)
    decreases k
  {
    if k == 0 || Group(t) == 0 {
      ds, gaps := [], [""];
      assert t[..0] == "";
    } else {
      var rest := t[Group(t)..];
      ds, gaps := SpanGrouped(rest, k - 1);
      hide Grouped, Group;
      ds, gaps := GroupedMore(t, Span(rest, k - 1), ds, gaps);
    }
  }

  lemma ShapedMore(u: string, n: nat, ds: seq<Digit>, gaps: seq<string>)
    requires u != "" && IsDigit(u[0]) && n < |u| && Grouped(u[1..][..n], ds, gaps)
    ensures Shaped(u[..1 + n], [Value(u[0])] + ds, [""] + gaps)
  {
    var all, allGaps := [Value(u[0])] + ds, [""] + gaps;
    assert all[1..] == ds && allGaps[1..] == gaps && allGaps[|all|] == gaps[|ds|];
    assert "0123456789"[Value(u[0])] == u[0];
    assert u[..1 + n] == "" + ([u[0]] + u[1..][..n]);
  }

  lemma MatchIsShaped(u: string)
    requires Match(u) > 0
    ensures CardShaped(u[..Match(u)])
  {
    var ds, gaps := SpanGrouped(u[1..], 18);
    ShapedMore(u, Span(u[1..], 18), ds, gaps);
    assert Shaped(u[..Match(u)], [Value(u[0])] + ds, [""] + gaps);
  }

  lemma ShapedIsMatched(u: string, n: nat)
    requires n <= |u| && CardShaped(u[..n])
    ensures 0 < n <= Match(u)
  {
    var ds, gaps :| Shaped(u[..n], ds, gaps) && 13 <= |ds| <= 19;
    assert u == u[..n] + u[n..];
    ShapedStep(u[..n], ds, gaps, u[n..]);
    GroupedAtMost(u[..n][1..], ds[1..], gaps[1..], u[n..], 18);
  }

  /** A match is the longest card-shaped text at its start, and there is none exactly when no
      card-shaped text starts there. */
  lemma MatchMeaning(u: string, n: nat)
    ensures n > 0 ==> (Match(u) == n <==> Longest(u, n))
    ensures Match(u) == 0 <==> NoCard(u)
  {
    hide Match, CardShaped;
    if Match(u) > 0 { MatchIsShaped(u); }
    forall k | 0 <= k <= |u| && CardShaped(u[..k]) ensures 0 < k <= Match(u) { ShapedIsMatched(u, k); }
  }

  // ---------------------------------------------------------------- all matches of a text

  predicate Inside(ms: seq<(nat, nat)>, p: nat) {
    exists m | m in ms :: m.0 <= p < m.1
  }

  /** `ms` are the non-overlapping card-shaped texts of `s` from `i` on, from left to right:
      each the longest at its start, and none starts outside them. */
  ghost predicate Leftmost(s: string, ms: seq<(nat, nat)>, i: nat) {
    && InOrder(s, ms, i)
    && (forall m | m in ms :: m.0 <= m.1 <= |s| && Longest(s[m.0..], m.1 - m.0))
    && (forall p | i <= p < |s| && !Inside(ms, p) :: NoCard(s[p..]))
  }

  lemma {:induction false} InOrderFrom(s: string, ms: seq<(nat, nat)>, i: nat)
    requires InOrder(s, ms, i)
    ensures forall m | m in ms :: i <= m.0 < m.1 <= |s|
  {
    if ms != [] {
      InOrderFrom(s, ms[1..], ms[0].1);
      assert forall m | m in ms :: m == ms[0] || m in ms[1..];
    }
  }

  lemma InsideMore(m: (nat, nat), ms: seq<(nat, nat)>, p: nat)
    ensures Inside([m] + ms, p) <==> Inside(ms, p) || m.0 <= p < m.1
  {
    assert m in [m] + ms && forall x | x in ms :: x in [m] + ms;
  }

  lemma LeftmostMatch(s: string, ms: seq<(nat, nat)>, i: nat)
    requires i < |s| && Match(s[i..]) > 0 && Leftmost(s, ms, i)
    ensures ms != [] && ms[0] == (i, i + Match(s[i..])) && Leftmost(s, ms[1..], i + Match(s[i..]))
  {
    hide Match, Longest, NoCard;
    var n := Match(s[i..]);
    MatchMeaning(s[i..], n);
    InOrderFrom(s, ms, i);
    assert Inside(ms, i);
    var m :| m in ms && m.0 <= i < m.1;
    InOrderFrom(s, ms[1..], ms[0].1);
    assert ms[0].0 == i && ms == [ms[0]] + ms[1..];
    MatchMeaning(s[i..], ms[0].1 - i);
    forall p | i + n <= p < |s| && !Inside(ms[1..], p) ensures NoCard(s[p..]) {
      InsideMore(ms[0], ms[1..], p);
    }
  }

  lemma LeftmostSkip(s: string, ms: seq<(nat, nat)>, i: nat)
    requires i < |s| && Match(s[i..]) == 0 && Leftmost(s, ms, i)
    ensures Leftmost(s, ms, i + 1)
  {
    hide Match, NoCard, CardShaped;
    MatchMeaning(s[i..], 0);
    if ms != [] && ms[0].0 == i { NoLongest(s[i..], ms[0].1 - i); }
  }

  lemma NoLongest(u: string, n: nat)
    requires NoCard(u)
    ensures !Longest(u, n)
  {
  }

  lemma {:induction false} LeftmostIsFound(s: string, ms: seq<(nat, nat)>, i: nat)
    requires i <= |s| && Leftmost(s, ms, i)
    ensures ms == FindAll(s, i)
    decreases |s| - i
  {
    hide Match, Leftmost;
    if i == |s| {
      LeftmostEnd(s, ms);
    } else if Match(s[i..]) > 0 {
      LeftmostMatch(s, ms, i);
      LeftmostIsFound(s, ms[1..], i + Match(s[i..]));
      assert ms == [ms[0]] + ms[1..];
    } else {
      LeftmostSkip(s, ms, i);
      LeftmostIsFound(s, ms, i + 1);
    }
  }

  lemma LeftmostEnd(s: string, ms: seq<(nat, nat)>)
    requires Leftmost(s, ms, |s|)
    ensures ms == []
  {
  }

  lemma LeftmostMore(s: string, ms: seq<(nat, nat)>, i: nat, n: nat)
    requires i < |s| && 0 < n == Match(s[i..]) && Leftmost(s, ms, i + n)
    ensures Leftmost(s, [(i, i + n)] + ms, i)
  {
    hide Match, Longest, NoCard;
    MatchMeaning(s[i..], n);
    var all := [(i, i + n)] + ms;
    assert all[1..] == ms;
    forall p | i <= p < |s| && !Inside(all, p) ensures NoCard(s[p..]) {
      assert (i, i + n) in all;
      InsideMore((i, i + n), ms, p);
    }
  }

  lemma LeftmostBefore(s: string, ms: seq<(nat, nat)>, i: nat)
    requires i < |s| && Match(s[i..]) == 0 && Leftmost(s, ms, i + 1)
    ensures Leftmost(s, ms, i)
  {
    hide Match, Longest, NoCard;
    MatchMeaning(s[i..], 0);
  }

  lemma NoneLeft(s: string)
    ensures Leftmost(s, [], |s|)
  {
    hide Longest, NoCard;
  }

  lemma {:induction false} FoundIsLeftmost(s: string, i: nat)
    requires i <= |s|
    ensures Leftmost(s, FindAll(s, i), i)
    decreases |s| - i
  {
    hide Match, Leftmost;
    if i == |s| {
      NoneLeft(s);
    } else {
      var n := Match(s[i..]);
      if n > 0 {
        FoundIsLeftmost(s, i + n);
        LeftmostMore(s, FindAll(s, i + n), i, n);
      } else {
        FoundIsLeftmost(s, i + 1);
        LeftmostBefore(s, FindAll(s, i + 1), i);
      }
    }
  }

  /** The matches are exactly the leftmost, longest card-shaped texts. */
  lemma FindAllMeaning(s: string, ms: seq<(nat, nat)>)
    ensures ms == FindAll(s, 0) <==> Leftmost(s, ms, 0)
  {
    hide Leftmost, FindAll;
    FoundIsLeftmost(s, 0);
    if Leftmost(s, ms, 0) { LeftmostIsFound(s, ms, 0); }
  }

  lemma Touches(s: string, i: int)
    ensures DigitAt(s, i) <==> 0 <= i < |s| && '0' <= s[i] <= '9'
  {
  }

  /** A match is masked exactly when no digit touches it and its digits pass the check. */
  lemma MaskedMeaning(s: string, a: nat, b: nat, ds: seq<Digit>, gaps: seq<string>)
    requires a <= b <= |s| && Shaped(s[a..b], ds, gaps) && 13 <= |ds| <= 19
    ensures Shown(s, (a, b))
         == if (a > 0 && '0' <= s[a - 1] <= '9') || (b < |s| && '0' <= s[b] <= '9') || PairSum(ds) % 10 != 0
            then s[a..b] else "[REDACTED]"
  {
    hide PassesLuhn, Shaped, PairSum, DigitAt;
    ShapedPasses(s[a..b], ds, gaps);
    Touches(s, a - 1);
    Touches(s, b);
  }

  lemma ShapedPasses(s: string, ds: seq<Digit>, gaps: seq<string>)
    requires Shaped(s, ds, gaps)
    ensures PassesLuhn(s) <==> 13 <= |ds| <= 19 && PairSum(ds) % 10 == 0
  {
    WovenDigits(ds, gaps);
    SumIsPairSum(ds);
    hide Sum, Digits, Woven, Clean;
  }

  // ---------------------------------------------------------------- one card in a text

  /** A card between texts without digits is masked when its check digit fits, and copied otherwise;
      so is a number of fewer than 13 digits. */
  lemma CardIsMasked(before: string, card: string, behind: string, ds: seq<Digit>, gaps: seq<string>)
    requires Shaped(card, ds, gaps) && |ds| <= 19 && NoDigit(before) && NoDigit(behind)
    ensures Redacted(before + card + behind)
         == before + (if 13 <= |ds| && PairSum(ds) % 10 == 0 then "[REDACTED]" else card) + behind
  {
    hide Pass, Redacted, Shaped, PairSum, NoDigit;
    CardPassed(card, behind, ds, gaps);
    CopiedBefore(before, card + behind);
    RedactedIsPass(before + card + behind);
    Joined(before, card, behind);
    Joined(before, "[REDACTED]", behind);
  }

  lemma Joined(a: string, b: string, c: string)
    ensures a + b + c == a + (b + c)
  {
  }

  lemma RedactedIsPass(s: string)
    ensures Redacted(s) == Pass(false, s)
  {
    hide Pass, Replace, FindAll, InOrder;
    PassIsReplace(s, 0);
    assert s[0..] == s;
  }

  lemma CopiedBefore(m: string, w: string)
    requires NoDigit(m)
    ensures Pass(false, m + w) == m + Pass(false, w)
  {
    if m == "" {
      assert m + w == w && m + Pass(false, w) == Pass(false, w);
    } else {
      CopiedWithoutDigits(false, m, w);
    }
  }

  lemma CopiedBehind(m: string)
    requires NoDigit(m)
    ensures Pass(true, m) == m && Group(m) == 0 && !DigitAt(m, 0)
  {
    if m != "" {
      CopiedWithoutDigits(true, m, "");
      assert m + "" == m;
    }
    if |m| >= 2 { assert m[0] in m && m[1] in m; }
    if |m| == 1 { assert m[0] in m; }
  }

  lemma CardPassed(card: string, behind: string, ds: seq<Digit>, gaps: seq<string>)
    requires Shaped(card, ds, gaps) && |ds| <= 19 && NoDigit(behind)
    ensures Pass(false, card + behind)
         == (if 13 <= |ds| && PairSum(ds) % 10 == 0 then "[REDACTED]" else card) + behind
  {
    CopiedBehind(behind);
    ShapedStep(card, ds, gaps, behind);
    GroupedScan(card[1..], ds[1..], gaps[1..], behind, 18);
    ShapedPasses(card, ds, gaps);
    hide Shaped, Grouped, PairSum, PassesLuhn, Count, Span;
    var u := card + behind;
    assert u[..|card|] == card && u[|card|..] == behind;
    if |ds| < 13 {
      ShortRunCopied(false, u);
    } else {
      assert Match(u) == |card|;
      assert DigitAt(u, |card|) == DigitAt(behind, 0);
      assert Pass(false, u) == Kept(false, u, |card|) + Pass(true, behind);
    }
  }
}
