/**
 Byte strings as Go sees them: prefixes, suffixes, white space, letter case.
 */
module Text {

  predicate StartsWith(s: string, prefix: string) {
    |prefix| <= |s| && s[..|prefix|] == prefix
  }

  predicate EndsWith(s: string, suffix: string) {
    |suffix| <= |s| && s[|s| - |suffix|..] == suffix
  }

  function WithoutSuffix(s: string, suffix: string): string {
    if EndsWith(s, suffix) then s[..|s| - |suffix|] else s
  }

  /** Length of the UTF-8 encoded white-space character, in Unicode's sense, that `s` starts
      with; 0 when it starts with anything else. */
  function SpaceLength(s: string): (n: nat)
    ensures n <= 3 && n <= |s|
  {
    if s == "" then 0
    else
      var b := s[0] as int;
      if 0x09 <= b <= 0x0D || b == 0x20 then 1
      else if |s| >= 2 && b == 0xC2 && s[1] as int in {0x85, 0xA0} then 2
      else if |s| >= 3 &&
        var c, d := s[1] as int, s[2] as int;
        || (b == 0xE1 && c == 0x9A && d == 0x80)
        || (b == 0xE2 && c == 0x80 && (0x80 <= d <= 0x8A || d in {0xA8, 0xA9, 0xAF}))
        || (b == 0xE2 && c == 0x81 && d == 0x9F)
        || (b == 0xE3 && c == 0x80 && d == 0x80) then 3
      else 0
  }

  /** Nothing is left of `s` when its white space is trimmed. */
  predicate Blank(s: string)
    decreases |s|
  {
    s == "" || (SpaceLength(s) > 0 && Blank(s[SpaceLength(s)..]))
  }

  function TrimLeft(s: string): string
    decreases |s|
  {
    if SpaceLength(s) == 0 then s else TrimLeft(s[SpaceLength(s)..])
  }

  predicate SpaceAtEnd(s: string, n: nat) {
    n <= |s| && SpaceLength(s[|s| - n..]) == n
  }

  /** How many bytes the white-space character takes that `s` ends with; 0 if none. */
  function LastSpace(s: string): (n: nat)
    ensures n <= |s| && (n > 0 ==> SpaceAtEnd(s, n))
  {
    if SpaceAtEnd(s, 1) then 1 else if SpaceAtEnd(s, 2) then 2 else if SpaceAtEnd(s, 3) then 3 else 0
  }

  function TrimRight(s: string): string
    decreases |s|
  {
    if LastSpace(s) == 0 then s else TrimRight(s[..|s| - LastSpace(s)])
  }

  function TrimSpace(s: string): string {
    TrimRight(TrimLeft(s))
  }

  /** The letters whose lower case is an ASCII letter that occurs in a level name: besides the
      ASCII capitals the capital I with a dot, in UTF-8 the bytes C4 B0. */
  function ToLower(s: string): string
    decreases |s|
  {
    if s == "" then ""
    else if |s| >= 2 && s[0] as int == 0xC4 && s[1] as int == 0xB0 then "i" + ToLower(s[2..])
    else [if 'A' <= s[0] <= 'Z' then (s[0] as int + 32) as char else s[0]] + ToLower(s[1..])
  }

  // ---------------------------------------------------------------- white space, character by character

  /** Unicode's white-space characters. */
  predicate IsWhite(c: nat) {
    0x09 <= c <= 0x0D || 0x2000 <= c <= 0x200A
    || c in {0x20, 0x85, 0xA0, 0x1680, 0x2028, 0x2029, 0x202F, 0x205F, 0x3000}
  }

  type White = c: nat | IsWhite(c) witness 0x20

  /** The UTF-8 encoding of a character below U+10000 (RFC 3629, section 3). */
  function Utf8(c: White): (s: string)
    ensures 1 <= |s| <= 3
  {
    if c < 0x80 then [c as char]
    else if c < 0x800 then [(0xC0 + c / 64) as char, (0x80 + c % 64) as char]
    else [(0xE0 + c / 4096 % 16) as char, (0x80 + c / 64 % 64) as char, (0x80 + c % 64) as char]
  }

  function Encoded(cs: seq<White>): string
  {
    if cs == [] then "" else Utf8(cs[0]) + Encoded(cs[1..])
  }

  ghost predicate BeginsWhite(s: string) {
    exists c :: Utf8(c) <= s
  }

  ghost predicate EndsWhite(s: string) {
    exists k, c :: 0 <= k <= |s| && s[k..] == Utf8(c)
  }

  lemma SpaceIsWhite(s: string) returns (c: White)
    requires SpaceLength(s) > 0
    ensures Utf8(c) == s[..SpaceLength(s)]
  {
    var n := SpaceLength(s);
    c := if n == 1 then s[0] as int
         else if n == 2 then s[1] as int
         else if s[0] as int == 0xE1 then 0x1680
         else if s[0] as int == 0xE3 then 0x3000
         else if s[1] as int == 0x81 then 0x205F
         else 0x2000 + s[2] as int - 0x80;
    SpaceBytes(s, c);
    hide SpaceLength, Utf8;
    assert |s[..n]| == n && forall i | 0 <= i < n :: s[..n][i] == Utf8(c)[i];
  }

  /** The bytes of each white-space character. */
  lemma Utf8Bytes(c: White)
    ensures c < 0x80 ==> Utf8(c) == [c as char]
    ensures 0x80 <= c < 0x800 ==> Utf8(c) == [0xC2 as char, c as char]
    ensures c == 0x1680 ==> Utf8(c) == [0xE1 as char, 0x9A as char, 0x80 as char]
    ensures 0x2000 <= c < 0x2040 ==> Utf8(c) == [0xE2 as char, 0x80 as char, (c - 0x2000 + 0x80) as char]
    ensures c == 0x205F ==> Utf8(c) == [0xE2 as char, 0x81 as char, 0x9F as char]
    ensures c == 0x3000 ==> Utf8(c) == [0xE3 as char, 0x80 as char, 0x80 as char]
    ensures c < 0x80 || c in {0x85, 0xA0, 0x1680, 0x205F, 0x3000} || 0x2000 <= c < 0x2040
  {
    assert IsWhite(c);
  }

  lemma SpaceBytes(s: string, c: White)
    requires SpaceLength(s) == 1 ==> c == s[0] as int
    requires SpaceLength(s) == 2 ==> c == s[1] as int
    requires SpaceLength(s) == 3 ==>
               c == if s[0] as int == 0xE1 then 0x1680
                    else if s[0] as int == 0xE3 then 0x3000
                    else if s[1] as int == 0x81 then 0x205F
                    else 0x2000 + s[2] as int - 0x80
    requires SpaceLength(s) > 0
    ensures |Utf8(c)| == SpaceLength(s) && forall i | 0 <= i < SpaceLength(s) :: s[i] == Utf8(c)[i]
  {
    Utf8Bytes(c);
    hide Utf8;
  }

  lemma WhiteIsSpace(s: string, c: White)
    requires Utf8(c) <= s
    ensures SpaceLength(s) == |Utf8(c)|
  {
    Utf8Bytes(c);
    assert IsWhite(c);
    hide Utf8;
    var u := Utf8(c);
    assert s[0] == u[0] && (|u| >= 2 ==> s[1] == u[1]) && (|u| >= 3 ==> s[2] == u[2]);
  }

  lemma BeginsMeaning(s: string)
    ensures SpaceLength(s) == 0 <==> !BeginsWhite(s)
  {
    hide SpaceLength, Utf8;
    if SpaceLength(s) > 0 {
      var c := SpaceIsWhite(s);
    }
    if c :| Utf8(c) <= s { WhiteIsSpace(s, c); }
  }

  lemma {:induction false} EncodedBack(cs: seq<White>, c: White)
    ensures Encoded(cs + [c]) == Encoded(cs) + Utf8(c)
  {
    hide Utf8;
    if cs == [] {
      assert [] + [c] == [c] && [c][1..] == [];
      assert Utf8(c) + "" == Utf8(c) == "" + Utf8(c);
    } else {
      assert (cs + [c])[1..] == cs[1..] + [c] && (cs + [c])[0] == cs[0];
      EncodedBack(cs[1..], c);
      assert Utf8(cs[0]) + (Encoded(cs[1..]) + Utf8(c)) == (Utf8(cs[0]) + Encoded(cs[1..])) + Utf8(c);
    }
  }

  lemma EncodedNone(s: string)
    ensures s == Encoded([]) + s == s + Encoded([])
  {
  }

  lemma EncodedFront(s: string, n: nat, c: White, rest: seq<White>, t: string)
    requires n <= |s| && s[..n] == Utf8(c) && s[n..] == Encoded(rest) + t
    ensures s == Encoded([c] + rest) + t
  {
    hide Utf8;
    assert ([c] + rest)[1..] == rest && s == s[..n] + s[n..];
    assert Utf8(c) + (Encoded(rest) + t) == (Utf8(c) + Encoded(rest)) + t;
  }

  lemma EncodedEnd(s: string, k: nat, c: White, front: seq<White>, t: string)
    requires k <= |s| && s[k..] == Utf8(c) && s[..k] == t + Encoded(front)
    ensures s == t + Encoded(front + [c])
  {
    EncodedBack(front, c);
    hide Utf8, Encoded;
    assert s == s[..k] + s[k..];
    assert (t + Encoded(front)) + Utf8(c) == t + (Encoded(front) + Utf8(c));
  }

  lemma NotTrimmed(s: string)
    requires SpaceLength(s) == 0 && LastSpace(s) == 0
    ensures TrimSpace(s) == s
  {
    hide SpaceLength, LastSpace;
  }

  lemma {:induction false} TrimLeftMeaning(s: string) returns (cs: seq<White>)
    ensures s == Encoded(cs) + TrimLeft(s) && !BeginsWhite(TrimLeft(s))
    decreases |s|
  {
    hide SpaceLength, Utf8, BeginsWhite, Encoded;
    var n := SpaceLength(s);
    BeginsMeaning(s);
    if n == 0 {
      cs := [];
      EncodedNone(s);
    } else {
      var c := SpaceIsWhite(s);
      var rest := TrimLeftMeaning(s[n..]);
      cs := [c] + rest;
      EncodedFront(s, n, c, rest, TrimLeft(s));
    }
  }

  lemma EndsMeaning(s: string)
    ensures LastSpace(s) == 0 <==> !EndsWhite(s)
  {
    hide SpaceLength, Utf8, SpaceAtEnd;
    var n := LastSpace(s);
    if n > 0 { var c := SpaceAtEndIsWhite(s, n); }
    if k, c :| 0 <= k <= |s| && s[k..] == Utf8(c) { WhiteAtEnd(s, k, c); }
  }

  lemma SpaceAtEndIsWhite(s: string, n: nat) returns (c: White)
    requires n > 0 && SpaceAtEnd(s, n)
    ensures s[|s| - n..] == Utf8(c)
  {
    hide SpaceLength;
    var t := s[|s| - n..];
    c := SpaceIsWhite(t);
    assert t[..n] == t;
  }

  lemma WhiteAtEnd(s: string, k: nat, c: White)
    requires k <= |s| && s[k..] == Utf8(c)
    ensures SpaceAtEnd(s, |Utf8(c)|) && |Utf8(c)| in {1, 2, 3}
  {
    hide SpaceLength;
    WhiteIsSpace(s[k..], c);
    assert |s| - |Utf8(c)| == k;
  }

  lemma {:induction false} TrimRightMeaning(s: string) returns (cs: seq<White>)
    ensures s == TrimRight(s) + Encoded(cs) && !EndsWhite(TrimRight(s)) && TrimRight(s) <= s
    decreases |s|
  {
    hide SpaceLength, Utf8, EndsWhite, LastSpace, Encoded;
    var n := LastSpace(s);
    EndsMeaning(s);
    if n == 0 {
      cs := [];
      EncodedNone(s);
    } else {
      var k := |s| - n;
      var c := SpaceAtEndIsWhite(s, n);
      var front := TrimRightMeaning(s[..k]);
      cs := front + [c];
      EncodedEnd(s, k, c, front, TrimRight(s));
    }
  }

  lemma PrefixBegins(t: string, s: string)
    requires t <= s && BeginsWhite(t)
    ensures BeginsWhite(s)
  {
    var c :| Utf8(c) <= t;
    assert Utf8(c) <= s;
  }

  /** Trimming takes away all white space at both ends and nothing else. */
  lemma TrimSpaceMeaning(s: string) returns (before: seq<White>, behind: seq<White>)
    ensures s == Encoded(before) + TrimSpace(s) + Encoded(behind)
    ensures !BeginsWhite(TrimSpace(s)) && !EndsWhite(TrimSpace(s))
  {
    hide TrimLeft, TrimRight, Utf8, Encoded;
    before := TrimLeftMeaning(s);
    behind := TrimRightMeaning(TrimLeft(s));
    var t := TrimSpace(s);
    assert Encoded(before) + (t + Encoded(behind)) == Encoded(before) + t + Encoded(behind);
    if BeginsWhite(t) { PrefixBegins(t, TrimLeft(s)); }
  }

  lemma {:induction false} EncodedBlank(cs: seq<White>)
    ensures Blank(Encoded(cs))
  {
    hide SpaceLength, Utf8;
    if cs != [] {
      var s := Encoded(cs);
      WhiteIsSpace(s, cs[0]);
      assert s[|Utf8(cs[0])|..] == Encoded(cs[1..]);
      EncodedBlank(cs[1..]);
    }
  }

  lemma {:induction false} BlankTrimmed(s: string)
    ensures Blank(s) <==> TrimLeft(s) == ""
    decreases |s|
  {
    hide SpaceLength;
    if SpaceLength(s) > 0 { BlankTrimmed(s[SpaceLength(s)..]); }
  }

  /** A blank text is nothing but white-space characters. */
  lemma BlankMeaning(s: string)
    ensures Blank(s) <==> exists cs :: s == Encoded(cs)
  {
    hide Blank, TrimLeft, Encoded;
    var cs := TrimLeftMeaning(s);
    BlankTrimmed(s);
    if Blank(s) { assert s == Encoded(cs); }
    if x :| s == Encoded(x) { EncodedBlank(x); }
  }

  // ---------------------------------------------------------------- letter case

  /** `s` spells the name in capital and small letters, mixed in any way. */
  predicate Spells(s: string, name: string)
    decreases |name|
  {
    if name == "" then s == ""
    else
      || (s != "" && (s[0] == name[0] || s[0] as int + 32 == name[0] as int) && Spells(s[1..], name[1..]))
      || (name[0] == 'i' && |s| >= 2 && s[0] as int == 0xC4 && s[1] as int == 0xB0 && Spells(s[2..], name[1..]))
  }

  lemma {:induction false} LowerMeaning(s: string, name: string)
    requires forall c | c in name :: 'a' <= c <= 'z'
    ensures ToLower(s) == name <==> Spells(s, name)
    decreases |name|
  {
    if name == "" || s == "" {
    } else {
      assert name[0] in name && forall c | c in name[1..] :: c in name;
      assert name == [name[0]] + name[1..];
      var n := if |s| >= 2 && s[0] as int == 0xC4 && s[1] as int == 0xB0 then 2 else 1;
      LowerMeaning(s[n..], name[1..]);
      assert ToLower(s) == [ToLower(s)[0]] + ToLower(s[n..]);
    }
  }
}
