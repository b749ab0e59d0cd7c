/**
 The Luhn check of ISO/IEC 7812-1, Annex B, over a candidate with separators.
 */
module Luhn {

  predicate IsDigit(c: char) {
    '0' <= c <= '9'
  }

  predicate IsSeparator(c: char) {
    c == ' ' || c == '-'
  }

  predicate Clean(candidate: string) {
    forall c | c in candidate :: IsDigit(c) || IsSeparator(c)
  }

  type Digit = d: nat | d <= 9

  function Value(c: char): Digit
    requires IsDigit(c)
  {
    c as int - '0' as int
  }

  /** The digits of a candidate, its separators dropped. */
  function Digits(s: string): seq<Digit> {
    if s == "" then []
    else (if IsDigit(s[0]) then [Value(s[0])] else []) + Digits(s[1..])
  }

  function Term(d: nat, doubled: bool): nat {
    if !doubled then d else if 2 * d > 9 then 2 * d - 9 else 2 * d
  }

  /** Luhn sum: counted from the right, every second digit is doubled. */
  function Sum(ds: seq<nat>): nat {
    if ds == [] then 0 else Term(ds[0], |ds| % 2 == 0) + Sum(ds[1..])
  }

  predicate PassesLuhn(candidate: string) {
    Clean(candidate) && 13 <= |Digits(candidate)| <= 19 && Sum(Digits(candidate)) % 10 == 0
  }

  /** The source's test: collect the digits, then sum them from the right. */
  method CheckLuhn(candidate: string) returns (ok: bool)
    ensures ok == PassesLuhn(candidate)
  {
    hide Value, Sum, Digits, IsSeparator;
    var digits: seq<nat> := [];
    NoDigits("");
    for i := 0 to |candidate|
      invariant Clean(candidate[..i]) && digits == Digits(candidate[..i])
    {
      var c := candidate[i];
      assert candidate[..i + 1] == candidate[..i] + [c];
      DigitsSplit(candidate[..i], [c]);
      DigitsOne(c);
      CleanOne(candidate[..i], c);
      hide Clean;
      if IsDigit(c) {
        digits := digits + [Value(c)];
      } else if !IsSeparator(c) {
        NotClean(candidate, i);
        return false;
      }
    }
    assert candidate[..|candidate|] == candidate;
    if |digits| < 13 || |digits| > 19 {
      return false;
    }
    var sum := SumFromRight(digits);
    return sum % 10 == 0;
  }

  lemma CleanOne(s: string, c: char)
    ensures Clean(s + [c]) <==> Clean(s) && (IsDigit(c) || IsSeparator(c))
  {
    assert c in s + [c] && forall x | x in s :: x in s + [c];
  }

  lemma NotClean(s: string, i: nat)
    requires i < |s| && !IsDigit(s[i]) && !IsSeparator(s[i])
    ensures !Clean(s)
  {
    assert s[i] in s;
  }

  method SumFromRight(digits: seq<nat>) returns (sum: nat)
    ensures sum == Sum(digits)
  {
    var double := false;
    sum := 0;
    var i := |digits|;
    while i > 0
      invariant 0 <= i <= |digits|
      invariant sum == Sum(digits[i..]) && double == ((|digits| - i) % 2 == 1)
    {
      i := i - 1;
      assert digits[i..][1..] == digits[i + 1..] && digits[i..][0] == digits[i];
      var digit := digits[i];
      if double {
        digit := digit * 2;
        if digit > 9 { digit := digit - 9; }
      }
      sum := sum + digit;
      double := !double;
    }
    assert digits[0..] == digits;
  }

  // ---------------------------------------------------------------- what the check detects

  lemma {:induction false} DigitsSplit(a: string, b: string)
    ensures Digits(a + b) == Digits(a) + Digits(b)
    ensures Clean(a + b) <==> Clean(a) && Clean(b)
  {
    assert Clean(a + b) <==> Clean(a) && Clean(b) by {
      if Clean(a + b) {
        assert forall c | c in a :: c in a + b;
        assert forall c | c in b :: c in a + b;
      }
    }
    if a == "" {
      assert a + b == b;
    } else {
      hide Value, Clean;
      assert (a + b)[0] == a[0] && (a + b)[1..] == a[1..] + b;
      DigitsSplit(a[1..], b);
    }
  }

  lemma DigitsOne(c: char)
    ensures Digits([c]) == if IsDigit(c) then [Value(c)] else []
  {
    assert [c][1..] == "";
  }

  lemma DigitsAround(a: string, c: char, b: string)
    requires IsDigit(c)
    ensures Digits((a + [c]) + b) == (Digits(a) + [Value(c)]) + Digits(b)
    ensures Clean((a + [c]) + b) <==> Clean(a) && Clean(b)
  {
    DigitsOne(c);
    assert Clean([c]);
    hide Digits, Clean, Value;
    DigitsSplit(a + [c], b);
    DigitsSplit(a, [c]);
  }

  /** Replacing the digit at `i` replaces one element of the digits. */
  lemma DigitsUpdate(s: string, i: nat, c: char)
    requires i < |s| && IsDigit(s[i]) && IsDigit(c)
    ensures var k := |Digits(s[..i])|;
            k < |Digits(s)| && Digits(s)[k] == Value(s[i]) && Digits(s[i := c]) == Digits(s)[k := Value(c)]
    ensures Clean(s[i := c]) <==> Clean(s)
  {
    hide Digits, Clean, Value;
    var a, b := s[..i], s[i + 1..];
    assert s == (a + [s[i]]) + b && s[i := c] == (a + [c]) + b;
    DigitsAround(a, s[i], b);
    DigitsAround(a, c, b);
    assert (Digits(a) + [Value(s[i])] + Digits(b))[|Digits(a)| := Value(c)] == Digits(a) + [Value(c)] + Digits(b);
  }

  predicate Doubled(ds: seq<nat>, i: nat) {
    i < |ds| && (|ds| - i) % 2 == 0
  }

  lemma {:induction false} SumUpdate(ds: seq<nat>, i: nat, x: nat)
    requires i < |ds|
    ensures Sum(ds[i := x]) == Sum(ds) - Term(ds[i], Doubled(ds, i)) + Term(x, Doubled(ds, i))
  {
    hide Term;
    if i == 0 {
      assert ds[0 := x][1..] == ds[1..];
    } else {
      assert ds[i := x][1..] == ds[1..][i - 1 := x];
      SumUpdate(ds[1..], i - 1, x);
    }
  }

  /** One changed digit always makes a passing number fail. */
  lemma SingleDigitError(s: string, i: nat, c: char)
    requires PassesLuhn(s) && i < |s| && IsDigit(s[i]) && IsDigit(c) && c != s[i]
    ensures !PassesLuhn(s[i := c])
  {
    DigitsUpdate(s, i, c);
    var ds, k := Digits(s), |Digits(s[..i])|;
    SumUpdate(ds, k, Value(c));
    TermInjective(Value(s[i]), Value(c), Doubled(ds, k));
    hide Term, Sum, Digits, Clean, Doubled;
    ShiftTen(Sum(ds), Term(Value(c), Doubled(ds, k)) - Term(Value(s[i]), Doubled(ds, k)));
  }

  lemma TermInjective(x: nat, y: nat, b: bool)
    requires x <= 9 && y <= 9
    ensures (Term(y, b) - Term(x, b)) % 10 == 0 <==> x == y
  {
  }

  lemma ShiftTen(a: int, d: int)
    requires a % 10 == 0
    ensures (a + d) % 10 == 0 <==> d % 10 == 0
  {
  }

  predicate ZeroAndNine(a: char, b: char) {
    (a == '0' && b == '9') || (a == '9' && b == '0')
  }

  function SwapGain(x: nat, y: nat, b: bool): int {
    Term(y, b) + Term(x, !b) - Term(x, b) - Term(y, !b)
  }

  lemma SwapTerms(x: nat, y: nat, b: bool)
    requires x <= 9 && y <= 9
    ensures SwapGain(x, y, b) % 10 == 0
        <==> x == y || (x == 0 && y == 9) || (x == 9 && y == 0)
  {
    DoublingGain(x);
    DoublingGain(y);
    hide Term;
    var f, g := if x <= 4 then x else x - 9, if y <= 4 then y else y - 9;
    assert SwapGain(x, y, b) == if b then g - f else f - g;
    assert -8 <= g - f <= 8;
  }

  /** What doubling adds to a digit. */
  lemma DoublingGain(d: nat)
    requires d <= 9
    ensures Term(d, true) - Term(d, false) == if d <= 4 then d else d - 9
  {
  }

  lemma SwapSum(ds: seq<nat>, k: nat)
    requires k + 1 < |ds|
    ensures Sum(ds[k := ds[k + 1]][k + 1 := ds[k]]) == Sum(ds) + SwapGain(ds[k], ds[k + 1], Doubled(ds, k))
  {
    var t := ds[k := ds[k + 1]];
    assert Doubled(t, k + 1) == !Doubled(ds, k);
    hide Term, Sum, Doubled;
    SumUpdate(ds, k, ds[k + 1]);
    SumUpdate(t, k + 1, ds[k]);
  }

  /** Swapping two distinct neighbouring digits, across any separators, is caught exactly
      when they are not 0 and 9. */
  lemma AdjacentSwap(s: string, i: nat, j: nat)
    requires PassesLuhn(s) && i < j < |s| && IsDigit(s[i]) && IsDigit(s[j])
    requires forall c | c in s[i + 1..j] :: !IsDigit(c)
    ensures PassesLuhn(s[i := s[j]][j := s[i]]) <==> s[i] == s[j] || ZeroAndNine(s[i], s[j])
  {
    SwappedDigits(s, i, j);
    var ds, k := Digits(s), |Digits(s[..i])|;
    hide Digits, Clean, Sum;
    SwapPasses(ds, k);
  }

  /** On the digits: a sum that passes still passes exactly when the swap gains a multiple of ten. */
  lemma SwapPasses(ds: seq<nat>, k: nat)
    requires k + 1 < |ds| && ds[k] <= 9 && ds[k + 1] <= 9 && Sum(ds) % 10 == 0
    ensures Sum(ds[k := ds[k + 1]][k + 1 := ds[k]]) % 10 == 0
       <==> ds[k] == ds[k + 1] || (ds[k] == 0 && ds[k + 1] == 9) || (ds[k] == 9 && ds[k + 1] == 0)
  {
    hide Sum, Doubled, SwapGain;
    SwapSum(ds, k);
    SwapTerms(ds[k], ds[k + 1], Doubled(ds, k));
    ShiftTen(Sum(ds), SwapGain(ds[k], ds[k + 1], Doubled(ds, k)));
  }

  /** The digits of a string with two neighbouring digits swapped. */
  lemma SwappedDigits(s: string, i: nat, j: nat)
    requires i < j < |s| && IsDigit(s[i]) && IsDigit(s[j])
    requires forall c | c in s[i + 1..j] :: !IsDigit(c)
    ensures var ds, k := Digits(s), |Digits(s[..i])|;
            && k + 1 < |ds| && ds[k] == Value(s[i]) && ds[k + 1] == Value(s[j])
            && Digits(s[i := s[j]][j := s[i]]) == ds[k := ds[k + 1]][k + 1 := ds[k]]
            && (Clean(s[i := s[j]][j := s[i]]) <==> Clean(s))
  {
    var t := s[i := s[j]];
    assert t[..i] == s[..i] && s[j := s[j]] == s && t[i + 1..j] == s[i + 1..j];
    hide Digits, Clean, Value;
    DigitsUpdate(s, i, s[j]);
    DigitsUpdate(t, j, s[i]);
    DigitsUpdate(s, j, s[j]);
    NextDigit(s, i, j);
    NextDigit(t, i, j);
  }

  lemma NextDigit(s: string, i: nat, j: nat)
    requires i < j < |s| && IsDigit(s[i]) && forall c | c in s[i + 1..j] :: !IsDigit(c)
    ensures |Digits(s[..j])| == |Digits(s[..i])| + 1
  {
    assert s[..j] == s[..i] + ([s[i]] + s[i + 1..j]);
    DigitsSplit(s[..i], [s[i]] + s[i + 1..j]);
    DigitsSplit([s[i]], s[i + 1..j]);
    DigitsOne(s[i]);
    NoDigits(s[i + 1..j]);
  }

  lemma {:induction false} NoDigits(s: string)
    requires forall c | c in s :: !IsDigit(c)
    ensures Digits(s) == []
  {
    if s != "" {
      assert s[0] in s && forall c | c in s[1..] :: c in s;
      NoDigits(s[1..]);
    }
  }

  function CheckDigit(payload: string): char {
    var t := Sum(Digits(payload) + [0]);
    ('0' as int + (10 - t % 10) % 10) as char
  }

  /** Each payload of 12 to 18 digits has exactly one check digit that makes it pass. */
  lemma ExactlyOneCheckDigit(payload: string, c: char)
    requires Clean(payload) && 12 <= |Digits(payload)| <= 18
    ensures IsDigit(CheckDigit(payload))
    ensures IsDigit(c) ==> (PassesLuhn(payload + [c]) <==> c == CheckDigit(payload))
  {
    hide Sum, Digits, Clean;
    if IsDigit(c) {
      var ds := Digits(payload);
      DigitsSplit(payload, [c]);
      DigitsOne(c);
      CleanOne(payload, c);
      SumLast(ds, Value(c));
      TopUp(Sum(ds + [0]), Value(c));
    }
  }

  lemma SumLast(ds: seq<nat>, x: nat)
    ensures Sum(ds + [x]) == Sum(ds + [0]) + x
  {
    SumUpdate(ds + [0], |ds|, x);
    assert (ds + [0])[|ds| := x] == ds + [x];
  }

  lemma TopUp(t: nat, x: nat)
    requires x <= 9
    ensures (t + x) % 10 == 0 <==> x == (10 - t % 10) % 10
  {
  }

  // ---------------------------------------------------------------- the check without the scanner's functions

  /** Digits with a piece of text before each of them and one behind the last. */
  function Woven(ds: seq<Digit>, gaps: seq<string>): string
    requires |gaps| == |ds| + 1
  {
    if ds == [] then gaps[0]
    else gaps[0] + (["0123456789"[ds[0]]] + Woven(ds[1..], gaps[1..]))
  }

  /** `s` is the digits `ds` with nothing but spaces and hyphens before, between and behind them. */
  predicate Weaves(s: string, ds: seq<Digit>, gaps: seq<string>) {
    && |gaps| == |ds| + 1
    && (forall g, c | g in gaps && c in g :: c == ' ' || c == '-')
    && s == Woven(ds, gaps)
  }

  /** The sum by pairs from the right, with a table of the digit sums of twice a digit. */
  function PairSum(ds: seq<Digit>): nat {
    if ds == [] then 0
    else if |ds| == 1 then ds[0]
    else PairSum(ds[..|ds| - 2]) + [0, 2, 4, 6, 8, 1, 3, 5, 7, 9][ds[|ds| - 2]] + ds[|ds| - 1]
  }

  lemma {:induction false} SumBehind(ds: seq<nat>, x: nat, y: nat)
    ensures Sum(ds + [x, y]) == Sum(ds) + Term(x, true) + y
  {
    hide Term;
    if ds == [] {
      assert ([x, y])[1..] == [y] && [y][1..] == [] && ds + [x, y] == [x, y];
      SumPair(x, y);
    } else {
      assert (ds + [x, y])[1..] == ds[1..] + [x, y] && |ds + [x, y]| % 2 == |ds| % 2;
      SumBehind(ds[1..], x, y);
    }
  }

  lemma SumPair(x: nat, y: nat)
    ensures Sum([x, y]) == Term(x, true) + y && Sum([]) == 0
  {
    assert [x, y][1..] == [y] && [y][1..] == [];
    assert Sum([y]) == Term(y, false);
  }

  lemma {:induction false} SumIsPairSum(ds: seq<Digit>)
    ensures Sum(ds) == PairSum(ds)
  {
    if |ds| == 1 {
      assert ds[1..] == [];
    } else if ds != [] {
      var front := ds[..|ds| - 2];
      assert ds == front + [ds[|ds| - 2], ds[|ds| - 1]];
      SumBehind(front, ds[|ds| - 2], ds[|ds| - 1]);
      SumIsPairSum(front);
    }
  }

  lemma DigitWritten(d: Digit)
    ensures IsDigit("0123456789"[d]) && Value("0123456789"[d]) == d
  {
  }

  lemma Gap(g: string)
    requires forall c | c in g :: c == ' ' || c == '-'
    ensures Digits(g) == [] && Clean(g)
  {
    NoDigits(g);
  }

  /** The digits of a woven text are the digits it was woven from. */
  lemma {:induction false} WovenDigits(ds: seq<Digit>, gaps: seq<string>)
    requires |gaps| == |ds| + 1
    requires forall g, c | g in gaps && c in g :: c == ' ' || c == '-'
    ensures Digits(Woven(ds, gaps)) == ds && Clean(Woven(ds, gaps))
  {
    Gap(gaps[0]);
    if ds != [] {
      var rest := Woven(ds[1..], gaps[1..]);
      WovenDigits(ds[1..], gaps[1..]);
      DigitWritten(ds[0]);
      var c := "0123456789"[ds[0]];
      DigitsOne(c);
      assert Clean([c]);
      hide Digits, Clean, Value, IsDigit;
      DigitsSplit([c], rest);
      DigitsSplit(gaps[0], [c] + rest);
      assert [ds[0]] + ds[1..] == ds;
    }
  }

  /** Every clean text can be unwoven. */
  lemma {:induction false} Unwoven(s: string) returns (gaps: seq<string>)
    requires Clean(s)
    ensures Weaves(s, Digits(s), gaps)
  {
    if s == "" {
      gaps := [""];
    } else {
      assert s == [s[0]] + s[1..];
      DigitsSplit([s[0]], s[1..]);
      var rest := Unwoven(s[1..]);
      var ds := Digits(s[1..]);
      assert s[0] in s;
      DigitsOne(s[0]);
      hide Digits, Weaves, Clean, Value;
      if IsDigit(s[0]) {
        gaps := [""] + rest;
        UnwovenDigit(s, ds, rest, gaps);
      } else {
        assert [] + ds == ds;
        RestNotEmpty(s[1..], ds, rest);
        gaps := [[s[0]] + rest[0]] + rest[1..];
        UnwovenGap(s, ds, rest, gaps);
      }
    }
  }

  lemma RestNotEmpty(s: string, ds: seq<Digit>, rest: seq<string>)
    requires Weaves(s, ds, rest)
    ensures rest != []
  {
  }

  lemma UnwovenDigit(s: string, ds: seq<Digit>, rest: seq<string>, gaps: seq<string>)
    requires s != "" && IsDigit(s[0]) && Weaves(s[1..], ds, rest) && gaps == [""] + rest
    ensures Weaves(s, [Value(s[0])] + ds, gaps)
  {
    var all := [Value(s[0])] + ds;
    assert all[1..] == ds && gaps[1..] == rest && gaps[0] == "";
    assert "0123456789"[Value(s[0])] == s[0];
    assert s == [s[0]] + s[1..];
    assert Woven(all, gaps) == "" + ([s[0]] + Woven(ds, rest));
  }

  lemma UnwovenGap(s: string, ds: seq<Digit>, rest: seq<string>, gaps: seq<string>)
    requires s != "" && (s[0] == ' ' || s[0] == '-') && Weaves(s[1..], ds, rest)
    requires gaps == [[s[0]] + rest[0]] + rest[1..]
    ensures Weaves(s, ds, gaps)
  {
    assert gaps[1..] == rest[1..] && s == [s[0]] + s[1..];
    forall g, c | g in gaps && c in g ensures c == ' ' || c == '-' {
      if g == gaps[0] && c != s[0] { assert c in rest[0] && rest[0] in rest; }
    }
    if ds != [] {
      var tail := ["0123456789"[ds[0]]] + Woven(ds[1..], rest[1..]);
      assert ([s[0]] + rest[0]) + tail == [s[0]] + (rest[0] + tail);
    }
  }

  /** The check passes exactly the texts of 13 to 19 digits, mixed with spaces and hyphens in
      any way, whose sum of pairs from the right is a multiple of ten. */
  lemma PassesMeaning(s: string)
    ensures PassesLuhn(s)
       <==> (exists ds, gaps :: Weaves(s, ds, gaps) && 13 <= |ds| <= 19 && PairSum(ds) % 10 == 0)
  {
    if PassesLuhn(s) {
      var gaps := Unwoven(s);
      SumIsPairSum(Digits(s));
      assert Weaves(s, Digits(s), gaps);
    }
    if ds, gaps :| Weaves(s, ds, gaps) && 13 <= |ds| <= 19 && PairSum(ds) % 10 == 0 {
      WovenDigits(ds, gaps);
      SumIsPairSum(ds);
    }
  }
}
