/**
 Batch file names: text order, fixed-width fields, and why sorting the names as
 text sorts the batches by the time they were written.
 */
module Names {

  // ---------------------------------------------------------------- text order

  predicate Less(a: string, b: string) {
    b != "" && (a == "" || a[0] < b[0] || (a[0] == b[0] && Less(a[1..], b[1..])))
  }

  lemma {:induction false} LessTotal(a: string, b: string)
    ensures Less(a, b) || a == b || Less(b, a)
    ensures !(Less(a, b) && Less(b, a)) && (Less(a, b) ==> a != b)
  {
    if a != "" && b != "" && a[0] == b[0] {
      LessTotal(a[1..], b[1..]);
      assert a == [a[0]] + a[1..] && b == [b[0]] + b[1..];
    }
  }

  lemma {:induction false} LessTrans(a: string, b: string, c: string)
    requires Less(a, b) && Less(b, c)
    ensures Less(a, c)
  {
    if a != "" && a[0] == b[0] == c[0] {
      LessTrans(a[1..], b[1..], c[1..]);
    }
  }

  lemma {:induction false} LessAppend(a: string, b: string, x: string, y: string)
    requires |a| == |b|
    ensures Less(a, b) ==> Less(a + x, b + y)
    ensures a == b && Less(x, y) ==> Less(a + x, b + y)
  {
    if a == "" {
      assert a + x == x && b + y == y;
    } else {
      assert (a + x)[1..] == a[1..] + x && (b + y)[1..] == b[1..] + y;
      LessAppend(a[1..], b[1..], x, y);
    }
  }

  // ---------------------------------------------------------------- sorted listings

  predicate Sorted(names: seq<string>) {
    forall i, j | 0 <= i < j < |names| :: Less(names[i], names[j])
  }

  predicate IsFirst(m: string, s: set<string>) {
    m in s && forall x | x in s :: x == m || Less(m, x)
  }

  lemma {:induction false} FirstExists(s: set<string>) returns (m: string)
    requires s != {}
    ensures IsFirst(m, s)
    decreases s
  {
    m :| m in s;
    if s != {m} {
      var rest := s - {m};
      var k := FirstExists(rest);
      LessTotal(m, k);
      forall x | x in s && x != m && Less(m, k) ensures Less(m, x) {
        if x != k { LessTrans(m, k, x); }
      }
      if Less(k, m) { m := k; }
    }
  }

  lemma FirstUnique(s: set<string>, m: string, k: string)
    requires IsFirst(m, s) && IsFirst(k, s)
    ensures m == k
  {
    LessTotal(m, k);
  }

  /** A directory listing: the names in text order. */
  function SortedNames(s: set<string>): seq<string>
    decreases s
  {
    if s == {} then []
    else
      assert exists m :: IsFirst(m, s) by { var m := FirstExists(s); }
      assert forall m, k | IsFirst(m, s) && IsFirst(k, s) :: m == k by {
        forall m, k | IsFirst(m, s) && IsFirst(k, s) ensures m == k { FirstUnique(s, m, k); }
      }
      var m :| m in s && IsFirst(m, s);
      [m] + SortedNames(s - {m})
  }

  lemma {:induction false} SortedNamesMeaning(s: set<string>)
    ensures Sorted(SortedNames(s))
    ensures forall n :: n in SortedNames(s) <==> n in s
    decreases s
  {
    if s != {} {
      var names := SortedNames(s);
      SortedNamesMeaning(s - {names[0]});
      assert names == [names[0]] + names[1..] && names[1..] == SortedNames(s - {names[0]});
      forall i, j | 0 <= i < j < |names| ensures Less(names[i], names[j]) {
        assert names[j] in names[1..];
        if i > 0 { assert names[i] == names[1..][i - 1] && names[j] == names[1..][j - 1]; }
      }
    }
  }

  // ---------------------------------------------------------------- fixed-width names

  function Pow10(w: nat): nat {
    if w == 0 then 1 else 10 * Pow10(w - 1)
  }

  function Digit(d: nat): char
    requires d < 10
  {
    ('0' as int + d) as char
  }

  /** The last `w` decimal digits of `n`. */
  function Pad(n: nat, w: nat): (s: string)
    ensures |s| == w
  {
    if w == 0 then "" else Pad(n / 10, w - 1) + [Digit(n % 10)]
  }

  lemma {:induction false} PadOrder(n: nat, m: nat, w: nat)
    requires n < m < Pow10(w)
    ensures Less(Pad(n, w), Pad(m, w))
  {
    if n / 10 < m / 10 {
      PadOrder(n / 10, m / 10, w - 1);
      LessAppend(Pad(n / 10, w - 1), Pad(m / 10, w - 1), [Digit(n % 10)], [Digit(m % 10)]);
    } else {
      assert Less([Digit(n % 10)], [Digit(m % 10)]);
      LessAppend(Pad(n / 10, w - 1), Pad(m / 10, w - 1), [Digit(n % 10)], [Digit(m % 10)]);
    }
  }

  datatype Clock = Clock(year: nat, month: nat, day: nat, hour: nat, minute: nat, second: nat, nanos: nat)

  /** A UTC wall-clock reading with a four-digit year. */
  predicate InRange(c: Clock) {
    && c.year < 10000 && 1 <= c.month <= 12 && 1 <= c.day <= 31
    && c.hour < 24 && c.minute < 60 && c.second < 60 && c.nanos < 1_000_000_000
  }

  function Fields(c: Clock): seq<nat> {
    [c.year, c.month, c.day, c.hour, c.minute, c.second, c.nanos]
  }

  /** Chronological order: the first field that differs decides. */
  predicate Earlier(a: seq<nat>, b: seq<nat>) {
    a != [] && b != [] && (a[0] < b[0] || (a[0] == b[0] && Earlier(a[1..], b[1..])))
  }

  /** What stands before each field, and how wide the field is. */
  const LAYOUT: seq<(string, nat)> :=
    [("", 4), ("", 2), ("", 2), ("T", 2), ("", 2), ("", 2), (".", 9)]

  function Render(fields: seq<nat>, layout: seq<(string, nat)>): string
    requires |fields| == |layout|
  {
    if fields == [] then ""
    else (layout[0].0 + Pad(fields[0], layout[0].1)) + Render(fields[1..], layout[1..])
  }

  predicate Fits(fields: seq<nat>, layout: seq<(string, nat)>) {
    |fields| == |layout| && forall i | 0 <= i < |fields| :: fields[i] < Pow10(layout[i].1)
  }

  lemma {:induction false} RenderOrder(a: seq<nat>, b: seq<nat>, layout: seq<(string, nat)>)
    requires Fits(a, layout) && Fits(b, layout) && Earlier(a, b)
    ensures |Render(a, layout)| == |Render(b, layout)| && Less(Render(a, layout), Render(b, layout))
    decreases |layout|
  {
    var (mark, w) := layout[0];
    var x, y := Pad(a[0], w), Pad(b[0], w);
    RenderLength(a[1..], b[1..], layout[1..]);
    if a[0] < b[0] {
      PadOrder(a[0], b[0], w);
      LessAppend(mark, mark, x, y);
    } else {
      assert Fits(a[1..], layout[1..]) && Fits(b[1..], layout[1..]);
      RenderOrder(a[1..], b[1..], layout[1..]);
    }
    LessAppend(mark + x, mark + y, Render(a[1..], layout[1..]), Render(b[1..], layout[1..]));
  }

  lemma {:induction false} RenderLength(a: seq<nat>, b: seq<nat>, layout: seq<(string, nat)>)
    requires |a| == |b| == |layout|
    ensures |Render(a, layout)| == |Render(b, layout)|
    decreases |layout|
  {
    if a != [] { RenderLength(a[1..], b[1..], layout[1..]); }
  }

  const SUFFIX := ".json.gz"
  const CLAIM := ".sending"

  function Hex(bytes: seq<nat>): string {
    if bytes == [] then ""
    else
      var h := "0123456789abcdef";
      [h[bytes[0] / 16 % 16], h[bytes[0] % 16]] + Hex(bytes[1..])
  }

  function NewBatchName(now: Clock, random: seq<nat>): string {
    Render(Fields(now), LAYOUT) + ("Z-" + Hex(random) + SUFFIX)
  }

  lemma FieldsFit(c: Clock)
    requires InRange(c)
    ensures Fits(Fields(c), LAYOUT)
  {
    assert Pow10(1) == 10 && Pow10(2) == 100 && Pow10(3) == 1000 && Pow10(4) == 10000;
    assert Pow10(5) == 100000 && Pow10(6) == 1000000 && Pow10(7) == 10000000;
    assert Pow10(8) == 100000000 && Pow10(9) == 1000000000;
  }

  /** Names compare as text in the order of their timestamps, whatever their random parts. */
  lemma NamesInTimeOrder(a: Clock, b: Clock, r: seq<nat>, s: seq<nat>)
    requires InRange(a) && InRange(b) && Earlier(Fields(a), Fields(b))
    ensures Less(NewBatchName(a, r), NewBatchName(b, s))
  {
    FieldsFit(a);
    FieldsFit(b);
    RenderOrder(Fields(a), Fields(b), LAYOUT);
    LessAppend(Render(Fields(a), LAYOUT), Render(Fields(b), LAYOUT),
               "Z-" + Hex(r) + SUFFIX, "Z-" + Hex(s) + SUFFIX);
  }

  // ---------------------------------------------------------------- how a name is written

  /** `text` is the decimal numeral of `n`, with leading zeros up to its width. */
  predicate Numeral(text: string, n: nat)
    decreases |text|
  {
    if text == "" then n == 0
    else text[|text| - 1] == "0123456789"[n % 10] && Numeral(text[..|text| - 1], n / 10)
  }

  lemma {:induction false} PadNumeral(n: nat, w: nat)
    requires n < Pow10(w)
    ensures Numeral(Pad(n, w), n)
  {
    if w > 0 {
      PadNumeral(n / 10, w - 1);
      var front := Pad(n / 10, w - 1);
      assert (front + [Digit(n % 10)])[..w - 1] == front;
    }
  }

  /** `text` is the bytes in hexadecimal, two small digits for each. */
  predicate Hexadecimal(text: string, bytes: seq<nat>) {
    |text| == 2 * |bytes|
    && forall i | 0 <= i < |bytes| ::
         && text[2 * i] == "0123456789abcdef"[bytes[i] / 16 % 16]
         && text[2 * i + 1] == "0123456789abcdef"[bytes[i] % 16]
  }

  lemma {:induction false} HexMeaning(bytes: seq<nat>)
    ensures Hexadecimal(Hex(bytes), bytes)
  {
    if bytes != [] {
      HexMeaning(bytes[1..]);
      var rest, h := Hex(bytes[1..]), "0123456789abcdef";
      HexFront(h[bytes[0] / 16 % 16], h[bytes[0] % 16], rest, bytes);
    }
  }

  lemma HexFront(a: char, b: char, rest: string, bytes: seq<nat>)
    requires bytes != [] && Hexadecimal(rest, bytes[1..])
    requires a == "0123456789abcdef"[bytes[0] / 16 % 16] && b == "0123456789abcdef"[bytes[0] % 16]
    ensures Hexadecimal([a, b] + rest, bytes)
  {
    var t := [a, b] + rest;
    forall i | 0 <= i < |bytes|
      ensures t[2 * i] == "0123456789abcdef"[bytes[i] / 16 % 16] && t[2 * i + 1] == "0123456789abcdef"[bytes[i] % 16]
    {
      if i > 0 {
        assert t[2 * i] == rest[2 * (i - 1)] && t[2 * i + 1] == rest[2 * (i - 1) + 1] && bytes[i] == bytes[1..][i - 1];
      }
    }
  }

  /** `name` is the time in fields of fixed width, the random bytes and the suffix. */
  ghost predicate BatchName(name: string, c: Clock, random: seq<nat>) {
    exists y, mo, d, h, mi, s, ns, x :: Composed(name, c, random, y, mo, d, h, mi, s, ns, x)
  }

  predicate Composed(name: string, c: Clock, random: seq<nat>, y: string, mo: string, d: string,
                     h: string, mi: string, s: string, ns: string, x: string) {
    && name == (y + mo + d + "T" + h + mi + s + "." + ns) + ("Z-" + x + ".json.gz")
    && |y| == 4 && |mo| == |d| == |h| == |mi| == |s| == 2 && |ns| == 9
    && Numeral(y, c.year) && Numeral(mo, c.month) && Numeral(d, c.day)
    && Numeral(h, c.hour) && Numeral(mi, c.minute) && Numeral(s, c.second) && Numeral(ns, c.nanos)
    && Hexadecimal(x, random)
  }

  lemma RenderedFields(c: Clock)
    ensures Render(Fields(c), LAYOUT)
         == Pad(c.year, 4) + Pad(c.month, 2) + Pad(c.day, 2) + "T" + Pad(c.hour, 2) + Pad(c.minute, 2) + Pad(c.second, 2)
            + "." + Pad(c.nanos, 9)
  {
    hide Pad;
    var f, l := Fields(c), LAYOUT;
    Rendered(f, l);
    Rendered(f[1..], l[1..]);
    Rendered(f[2..], l[2..]);
    Rendered(f[3..], l[3..]);
    Rendered(f[4..], l[4..]);
    Rendered(f[5..], l[5..]);
    Rendered(f[6..], l[6..]);
    hide Render;
  }

  lemma Rendered(fields: seq<nat>, layout: seq<(string, nat)>)
    requires |fields| == |layout| > 0
    ensures Render(fields, layout) == (layout[0].0 + Pad(fields[0], layout[0].1)) + Render(fields[1..], layout[1..])
    ensures |fields| == 1 ==> Render(fields[1..], layout[1..]) == ""
    ensures |fields| > 1 ==> fields[1..][1..] == fields[2..] && layout[1..][1..] == layout[2..]
  {
    hide Pad;
  }

  /** Every name that is given out has this form. */
  lemma NameMeaning(c: Clock, random: seq<nat>)
    requires InRange(c)
    ensures BatchName(NewBatchName(c, random), c, random)
  {
    FieldsFit(c);
    RenderedFields(c);
    HexMeaning(random);
    assert Fits(Fields(c), LAYOUT);
    PadNumeral(c.year, 4);
    PadNumeral(c.month, 2);
    PadNumeral(c.day, 2);
    PadNumeral(c.hour, 2);
    PadNumeral(c.minute, 2);
    PadNumeral(c.second, 2);
    PadNumeral(c.nanos, 9);
    hide Pad, Render, Hex, Numeral, Hexadecimal, Pow10;
    assert Composed(NewBatchName(c, random), c, random, Pad(c.year, 4), Pad(c.month, 2), Pad(c.day, 2),
                    Pad(c.hour, 2), Pad(c.minute, 2), Pad(c.second, 2), Pad(c.nanos, 9), Hex(random));
  }
}
