/**
 The file tailer: complete lines of a watched file, the read position that
 stages them, and the committed position that a restart resumes from.
 A Go string is a `string` whose characters are bytes.
 */
module Tailing {

  datatype Option<+T> = None | Some(value: T)

  /** One line, or one assembled entry, and the offset just behind it. */
  datatype FileLine = FileLine(path: string, text: string, endOffset: int)

  /** What one poll sees of one watched file: `size` is the stat result, `data`
      the bytes from the start of the file up to where reading stopped. */
  datatype Observation =
    | Missing
    | OpenFailed
    | StatFailed
    | Opened(size: nat, seekOk: bool, data: string, readOk: bool)

  type Offsets = map<string, nat>

  function Get(m: Offsets, path: string): nat {
    if path in m then m[path] else 0
  }

  // ---------------------------------------------------------------- lines

  /** Offset behind the first newline at or after `a`; 0 when there is none. */
  function LineEnd(w: string, a: nat): (e: nat)
    requires a <= |w|
    ensures e == 0 ==> '\n' !in w[a..]
    ensures e != 0 ==> a < e <= |w| && w[e - 1] == '\n' && '\n' !in w[a..e - 1]
    decreases |w| - a
  {
    if a == |w| then 0 else if w[a] == '\n' then a + 1 else LineEnd(w, a + 1)
  }

  function TrimEnd(s: string, c: char): string {
    if s != [] && s[|s| - 1] == c then s[..|s| - 1] else s
  }

  function LineText(raw: string): string {
    TrimEnd(TrimEnd(raw, '\n'), '\r')
  }

  /** The complete lines of `w` from offset `a` on. */
  function Lines(path: string, w: string, a: nat): seq<FileLine>
    requires a <= |w|
    decreases |w| - a
  {
    var e := LineEnd(w, a);
    if e == 0 then [] else [FileLine(path, LineText(w[a..e]), e)] + Lines(path, w, e)
  }

  /** The offset behind the last complete line of `w` from `a` on. */
  function Stop(w: string, a: nat): (b: nat)
    requires a <= |w|
    ensures a <= b <= |w| && '\n' !in w[b..]
    ensures a < b ==> w[b - 1] == '\n'
    decreases |w| - a
  {
    var e := LineEnd(w, a);
    if e == 0 then a else Stop(w, e)
  }

  /** `a` is the start of `w` or stands just behind a newline. */
  predicate Boundary(w: string, a: nat) {
    a == 0 || (a <= |w| && w[a - 1] == '\n')
  }

  function Between(path: string, w: string, a: nat, b: nat): seq<FileLine>
    requires a <= b <= |w|
  {
    Lines(path, w[..b], a)
  }

  /** The next newline of a prefix is the next newline of the whole. */
  lemma {:induction false} LineEndLocal(w: string, v: string, a: nat)
    requires a <= |v| && v <= w && '\n' in v[a..]
    ensures LineEnd(w, a) == LineEnd(v, a) != 0
    decreases |v| - a
  {
    if v[a] != '\n' {
      assert v[a..] == [v[a]] + v[a + 1..];
      LineEndLocal(w, v, a + 1);
    }
  }

  /** A newline at `e - 1` bounds the next line end. */
  lemma {:induction false} LineEndBefore(w: string, a: nat, e: nat)
    requires a < e <= |w| && w[e - 1] == '\n'
    ensures 0 < LineEnd(w, a) <= e
    decreases |w| - a
  {
    if w[a] != '\n' { LineEndBefore(w, a + 1, e); }
  }

  /** Reading up to a line boundary and going on from there reads the same lines. */
  lemma {:induction false} LinesSplit(path: string, w: string, a: nat, b: nat)
    requires a <= b <= |w| && (a < b ==> w[b - 1] == '\n')
    ensures Lines(path, w, a) == Between(path, w, a, b) + Lines(path, w, b)
    decreases |w| - a
  {
    var v := w[..b];
    if a < b {
      assert v[b - 1] in v[a..];
      LineEndLocal(w, v, a);
      var e := LineEnd(w, a);
      assert v[a..e] == w[a..e];
      LinesSplit(path, w, e, b);
    }
  }

  lemma BetweenSplit(path: string, w: string, a: nat, b: nat, c: nat)
    requires a <= b <= c <= |w| && (a < b ==> w[b - 1] == '\n')
    ensures Between(path, w, a, c) == Between(path, w, a, b) + Between(path, w, b, c)
  {
    assert w[..c][..b] == w[..b];
    LinesSplit(path, w[..c], a, b);
  }

  lemma StopLines(path: string, v: string, w: string, a: nat)
    requires a <= |v| && v <= w
    ensures Lines(path, v, a) == Between(path, w, a, Stop(v, a))
  {
    var b := Stop(v, a);
    LinesSplit(path, v, a, b);
    assert LineEnd(v, b) == 0;
    assert v[..b] == w[..b];
  }

  /** Every line carries its path, and its end offset is a newline position in range. */
  lemma {:induction false} LinesShape(path: string, w: string, a: nat)
    requires a <= |w|
    ensures forall l | l in Lines(path, w, a) ::
              l.path == path && a < l.endOffset <= |w| && w[l.endOffset - 1] == '\n'
    decreases |w| - a
  {
    var e := LineEnd(w, a);
    if e != 0 { LinesShape(path, w, e); }
  }

  /** Conversely every newline from `a` on ends one of the lines. */
  lemma {:induction false} LinesComplete(path: string, w: string, a: nat, e: nat)
    requires a < e <= |w| && w[e - 1] == '\n'
    ensures exists l :: l in Lines(path, w, a) && l.endOffset == e
    decreases |w| - a
  {
    LineEndBefore(w, a, e);
    var f := LineEnd(w, a);
    if f < e {
      LinesComplete(path, w, f, e);
      var l :| l in Lines(path, w, f) && l.endOffset == e;
      assert l in Lines(path, w, a);
    } else {
      assert Lines(path, w, a)[0].endOffset == e;
    }
  }

  /** The first line of a non-empty stretch, and what remains. */
  lemma BetweenHead(path: string, w: string, a: nat, b: nat)
    requires a <= b <= |w| && (a < b ==> w[b - 1] == '\n')
    ensures a == b <==> Between(path, w, a, b) == []
    ensures a < b ==>
              var l := Between(path, w, a, b)[0];
              l.path == path && a < l.endOffset <= b && w[l.endOffset - 1] == '\n'
              && Between(path, w, a, l.endOffset) == [l]
              && Between(path, w, l.endOffset, b) == Between(path, w, a, b)[1..]
  {
    if a < b {
      hide Between, LineText;
      var v := w[..b];
      assert v[b - 1] in v[a..];
      var e := LineEnd(v, a);
      assert v[e - 1] == w[e - 1];
      BetweenSplit(path, w, a, e, b);
      BetweenOne(path, w, a, b, e);
      var l := FileLine(path, LineText(w[a..e]), e);
      assert ([l] + Between(path, w, e, b))[1..] == Between(path, w, e, b);
    }
  }

  /** Up to the first line end there is exactly one line. */
  lemma BetweenOne(path: string, w: string, a: nat, b: nat, e: nat)
    requires a < b <= |w| && e == LineEnd(w[..b], a) != 0
    ensures var l := FileLine(path, LineText(w[a..e]), e);
            Between(path, w, a, e) == [l] && Between(path, w, a, b) != [] && Between(path, w, a, b)[0] == l
  {
    hide LineText;
    var v, u := w[..b], w[..e];
    assert u[e - 1] in u[a..] && u <= v;
    LineEndLocal(v, u, a);
    assert u[a..e] == v[a..e] == w[a..e];
    assert LineEnd(u, e) == 0;
    assert Lines(path, u, e) == [];
  }

  // ---------------------------------------------------------------- one poll

  datatype TailerState = TailerState(offsets: Offsets, readOffsets: Offsets)

  datatype Reading = Reading(
    tailer: TailerState, lines: seq<FileLine>, resets: seq<string>, failed: bool)

  /** One iteration of the loop over the watched files. */
  function ReadOne(r: Reading, path: string, o: Observation): Reading {
    match o
    case Missing => r
    case OpenFailed => r.(failed := true)
    case StatFailed => r.(failed := true)
    case Opened(size, seekOk, data, readOk) =>
      var known := Get(r.tailer.readOffsets, path);
      var shrunk := size < known;
      var offset := if shrunk then 0 else known;
      var r1 := if shrunk then r.(tailer := r.tailer.(readOffsets := r.tailer.readOffsets[path := 0]),
                                  resets := r.resets + [path]) else r;
      if !seekOk then r1.(failed := true)
      else
        var here := offset <= |data|;
        r1.(tailer := r1.tailer.(readOffsets :=
              r1.tailer.readOffsets[path := if here then Stop(data, offset) else offset]),
            lines := r1.lines + (if here then Lines(path, data, offset) else []),
            failed := r1.failed || !readOk)
  }

  function ReadAll(r: Reading, files: seq<string>, obs: string -> Observation): Reading
    decreases |files|
  {
    if files == [] then r else ReadAll(ReadOne(r, files[0], obs(files[0])), files[1..], obs)
  }

  function ReadNew(t: TailerState, files: seq<string>, obs: string -> Observation): Reading {
    ReadAll(Reading(t, [], [], false), files, obs)
  }

  function ForPath(lines: seq<FileLine>, p: string): seq<FileLine> {
    if lines == [] then []
    else (if lines[0].path == p then [lines[0]] else []) + ForPath(lines[1..], p)
  }

  lemma {:induction false} ForPathAppend(a: seq<FileLine>, b: seq<FileLine>, p: string)
    ensures ForPath(a + b, p) == ForPath(a, p) + ForPath(b, p)
  {
    if a == [] {
      assert a + b == b;
    } else {
      assert (a + b)[0] == a[0] && (a + b)[1..] == a[1..] + b;
      ForPathAppend(a[1..], b, p);
      var head, rest, more := if a[0].path == p then [a[0]] else [], ForPath(a[1..], p), ForPath(b, p);
      assert head + (rest + more) == (head + rest) + more;
    }
  }

  lemma {:induction false} ForPathUniform(a: seq<FileLine>, q: string, p: string)
    requires forall l | l in a :: l.path == q
    ensures ForPath(a, p) == if p == q then a else []
  {
    if a != [] { ForPathUniform(a[1..], q, p); }
  }

  predicate Distinct(files: seq<string>) {
    forall i, j | 0 <= i < j < |files| :: files[i] != files[j]
  }

  /** Append-only sight of file content `w`: the file has not shrunk below what was
      read, and the bytes delivered are a prefix of its eventual content. */
  predicate Appending(t: TailerState, p: string, w: string, o: Observation) {
    o.Opened? ==> Get(t.readOffsets, p) <= o.size && o.data <= w
  }

  /** A read position that stands on a line boundary of `w`. */
  predicate Aligned(t: TailerState, p: string, w: string) {
    Get(t.readOffsets, p) <= |w| && Boundary(w, Get(t.readOffsets, p))
  }

  /** From `r` to `s`, the lines gained for `p` are exactly the complete lines between
      its two read positions. */
  ghost predicate Gained(r: Reading, s: Reading, p: string, w: string) {
    var a, b := Get(r.tailer.readOffsets, p), Get(s.tailer.readOffsets, p);
    && Aligned(r.tailer, p, w) && Aligned(s.tailer, p, w) && a <= b
    && ForPath(s.lines, p) == ForPath(r.lines, p) + Between(p, w, a, b)
    && (p in r.tailer.readOffsets || a < b ==> p in s.tailer.readOffsets)
  }

  lemma GainedSelf(r: Reading, p: string, w: string)
    requires Aligned(r.tailer, p, w)
    ensures Gained(r, r, p, w)
  {
    var a := Get(r.tailer.readOffsets, p);
    BetweenHead(p, w, a, a);
  }

  lemma GainedTwice(r: Reading, s: Reading, t: Reading, p: string, w: string)
    requires Gained(r, s, p, w) && Gained(s, t, p, w)
    ensures Gained(r, t, p, w)
  {
    hide Between, ForPath;
    var a, b := Get(r.tailer.readOffsets, p), Get(s.tailer.readOffsets, p);
    BetweenSplit(p, w, a, b, Get(t.tailer.readOffsets, p));
  }

  lemma ReadOneOther(r: Reading, q: string, o: Observation, p: string, w: string)
    requires p != q && Aligned(r.tailer, p, w)
    ensures Gained(r, ReadOne(r, q, o), p, w)
    ensures Get(ReadOne(r, q, o).tailer.readOffsets, p) == Get(r.tailer.readOffsets, p)
  {
    GainedSelf(r, p, w);
    assert r.lines + [] == r.lines;
    if o.Opened? && o.seekOk {
      var known := Get(r.tailer.readOffsets, q);
      var offset := if o.size < known then 0 else known;
      if offset <= |o.data| {
        LinesShape(q, o.data, offset);
        ForPathUniform(Lines(q, o.data, offset), q, p);
        ForPathAppend(r.lines, Lines(q, o.data, offset), p);
      }
    }
  }

  /** What one readable file adds to the lines of its path. */
  lemma LinesJoin(lines: seq<FileLine>, p: string, v: string, w: string, a: nat)
    requires a <= |v| && v <= w
    ensures ForPath(lines + Lines(p, v, a), p) == ForPath(lines, p) + Between(p, w, a, Stop(v, a))
  {
    StopLines(p, v, w, a);
    LinesShape(p, v, a);
    hide ForPath, Between, Lines;
    ForPathUniform(Lines(p, v, a), p, p);
    ForPathAppend(lines, Lines(p, v, a), p);
  }

  lemma ReadOneAppending(r: Reading, p: string, w: string, o: Observation)
    requires Appending(r.tailer, p, w, o) && Aligned(r.tailer, p, w)
    ensures Gained(r, ReadOne(r, p, o), p, w)
    ensures ReadOne(r, p, o).resets == r.resets
  {
    GainedSelf(r, p, w);
    assert r.lines + [] == r.lines;
    var a := Get(r.tailer.readOffsets, p);
    if o.Opened? && o.seekOk && a <= |o.data| {
      hide ForPath, Between, Lines;
      LinesJoin(r.lines, p, o.data, w, a);
    }
  }

  lemma ReadOneOffsets(r: Reading, q: string, o: Observation)
    ensures ReadOne(r, q, o).tailer.offsets == r.tailer.offsets
  {
  }

  /** Tailing does not depend on how a file grew, nor on other files: the lines of a file that
      grew are the complete lines between its old and its new read position. */
  lemma {:induction false} ReadPathAppending(r: Reading, files: seq<string>, obs: string -> Observation, p: string, w: string)
    requires Distinct(files) && Aligned(r.tailer, p, w) && (p in files ==> Appending(r.tailer, p, w, obs(p)))
    ensures Gained(r, ReadAll(r, files, obs), p, w)
    ensures p in ReadAll(r, files, obs).resets <==> p in r.resets
    decreases |files|
  {
    if files == [] {
      GainedSelf(r, p, w);
    } else {
      var q := files[0];
      var r1 := ReadOne(r, q, obs(q));
      OneOfMany(files);
      if p == q { ReadOneAppending(r, q, w, obs(q)); } else { ReadOneOther(r, q, obs(q), p, w); }
      hide ReadOne, Appending, Aligned, Distinct, Gained;
      GainedAligned(r, r1, p, w);
      if p in files[1..] { SameAppending(r.tailer, r1.tailer, p, w, obs(p)); }
      ReadPathAppending(r1, files[1..], obs, p, w);
      GainedTwice(r, r1, ReadAll(r1, files[1..], obs), p, w);
    }
  }

  lemma OneOfMany(files: seq<string>)
    requires files != [] && Distinct(files)
    ensures Distinct(files[1..]) && files[0] in files && files[0] !in files[1..]
    ensures forall x | x in files[1..] :: x in files
  {
    assert files == [files[0]] + files[1..];
  }

  lemma GainedAligned(r: Reading, s: Reading, p: string, w: string)
    requires Gained(r, s, p, w)
    ensures Aligned(s.tailer, p, w)
  {
  }

  lemma SameAppending(a: TailerState, b: TailerState, p: string, w: string, o: Observation)
    requires Appending(a, p, w, o) && Get(b.readOffsets, p) == Get(a.readOffsets, p)
    ensures Appending(b, p, w, o)
  {
  }

  /** A poll of growing files resets none and commits nothing. */
  lemma {:induction false} NothingReset(r: Reading, files: seq<string>, obs: string -> Observation, W: string -> string)
    requires Distinct(files) && forall q | q in files :: Appending(r.tailer, q, W(q), obs(q))
    ensures ReadAll(r, files, obs).resets == r.resets && ReadAll(r, files, obs).tailer.offsets == r.tailer.offsets
    decreases |files|
  {
    if files != [] {
      var q := files[0];
      var r1 := ReadOne(r, q, obs(q));
      OneOfMany(files);
      ReadOneOffsets(r, q, obs(q));
      forall x | x in files[1..] ensures Appending(r1.tailer, x, W(x), obs(x)) {
        SameAppending(r.tailer, r1.tailer, x, W(x), obs(x));
      }
      assert Appending(r.tailer, q, W(q), obs(q)) && r1.resets == r.resets;
      NothingReset(r1, files[1..], obs, W);
    }
  }

  predicate Troubled(o: Observation) {
    o.OpenFailed? || o.StatFailed? || (o.Opened? && !(o.seekOk && o.readOk))
  }

  /** A poll reports an error exactly when some file could not be opened, sized, positioned or
      read, and starts over exactly the files that are shorter than what was read of them. */
  lemma {:induction false} PollMeaning(r: Reading, files: seq<string>, obs: string -> Observation, p: string)
    requires Distinct(files)
    ensures var s := ReadAll(r, files, obs);
            && (s.failed <==> r.failed || exists q | q in files :: Troubled(obs(q)))
            && (p in s.resets <==>
                  p in r.resets || (p in files && obs(p).Opened? && obs(p).size < Get(r.tailer.readOffsets, p)))
    decreases |files|
  {
    if files != [] {
      var q := files[0];
      OneOfMany(files);
      assert forall x | x in files :: x == q || x in files[1..];
      hide Distinct, Lines, Stop, Troubled;
      OneFile(r, q, obs(q), p);
      PollMeaning(ReadOne(r, q, obs(q)), files[1..], obs, p);
    }
  }

  lemma OneFile(r: Reading, q: string, o: Observation, p: string)
    ensures var s := ReadOne(r, q, o);
            && (s.failed <==> r.failed || Troubled(o))
            && (p in s.resets <==> p in r.resets || (p == q && o.Opened? && o.size < Get(r.tailer.readOffsets, p)))
            && (p != q ==> Get(s.tailer.readOffsets, p) == Get(r.tailer.readOffsets, p))
  {
    hide Lines, Stop;
  }

  /** The same for one poll of all files. */
  lemma ReadAllAppending(
      r: Reading, files: seq<string>, obs: string -> Observation, W: string -> string, p: string)
    requires Distinct(files) && Aligned(r.tailer, p, W(p))
    requires forall q | q in files :: Appending(r.tailer, q, W(q), obs(q))
    ensures var s := ReadAll(r, files, obs);
            && Gained(r, s, p, W(p))
            && s.resets == r.resets && s.tailer.offsets == r.tailer.offsets
  {
    ReadPathAppending(r, files, obs, p, W(p));
    NothingReset(r, files, obs, W);
  }

  /** The bytes from `a` to `e` without the newline at the end and a carriage return before it. */
  function Bare(v: string, a: nat, e: nat): string
    requires a < e <= |v|
  {
    if e - a >= 2 && v[e - 2] == '\r' then v[a..e - 2] else v[a..e - 1]
  }

  lemma LineTextMeaning(v: string, a: nat, e: nat)
    requires a < e <= |v| && v[e - 1] == '\n'
    ensures LineText(v[a..e]) == Bare(v, a, e)
  {
    assert v[a..e][..e - a - 1] == v[a..e - 1];
    if e - a >= 2 { assert v[a..e - 1][..e - a - 2] == v[a..e - 2]; }
  }

  /** `ls` cuts the bytes of `v` from `a` on into pieces without gap or overlap: each piece is
      one line with its terminator, and its text is the piece without the terminator. */
  predicate Tiles(v: string, a: nat, ls: seq<FileLine>)
    requires a <= |v|
    decreases |ls|
  {
    if ls == [] then a == |v|
    else
      && a < ls[0].endOffset <= |v|
      && ls[0].text == Bare(v, a, ls[0].endOffset)
      && v[ls[0].endOffset - 1] == '\n' && '\n' !in v[a..ls[0].endOffset - 1]
      && Tiles(v, ls[0].endOffset, ls[1..])
  }

  lemma {:induction false} LinesTile(path: string, v: string, a: nat)
    requires a <= |v| && (a < |v| ==> v[|v| - 1] == '\n')
    ensures Tiles(v, a, Lines(path, v, a))
    decreases |v| - a
  {
    hide LineText, Bare;
    if a < |v| {
      assert v[|v| - 1] in v[a..];
      LineTextMeaning(v, a, LineEnd(v, a));
      LinesTile(path, v, LineEnd(v, a));
    }
  }

  /** The consumed bytes are exactly the content between the two positions. */
  lemma BetweenTiles(path: string, w: string, a: nat, b: nat)
    requires a <= b <= |w| && (a < b ==> w[b - 1] == '\n')
    ensures Tiles(w[..b], a, Between(path, w, a, b))
  {
    LinesTile(path, w[..b], a);
  }

  /** Successive polls, each of which may see the files grown. */
  function ReadMany(t: TailerState, files: seq<string>, polls: seq<string -> Observation>): Reading {
    if polls == [] then Reading(t, [], [], false)
    else
      var r := ReadMany(t, files, polls[..|polls| - 1]);
      var s := ReadNew(r.tailer, files, polls[|polls| - 1]);
      Reading(s.tailer, r.lines + s.lines, r.resets + s.resets, r.failed || s.failed)
  }

  /** Each poll sees append-only files. */
  ghost predicate GrowingFiles(t: TailerState, files: seq<string>, polls: seq<string -> Observation>, W: string -> string) {
    forall i, q | 0 <= i < |polls| && q in files ::
      Appending(ReadMany(t, files, polls[..i]).tailer, q, W(q), polls[i](q))
  }

  /** What a poll gains is gained on top of what was there before. */
  lemma GainedOnTop(r: Reading, s: Reading, p: string, w: string, resets: seq<string>, failed: bool)
    requires Gained(Reading(r.tailer, [], [], false), s, p, w)
    ensures Gained(r, Reading(s.tailer, r.lines + s.lines, resets, failed), p, w)
  {
    hide Between;
    ForPathAppend(r.lines, s.lines, p);
    assert [] + ForPath(s.lines, p) == ForPath(s.lines, p);
  }

  lemma OneMoreGained(t: TailerState, files: seq<string>, polls: seq<string -> Observation>, W: string -> string, p: string)
    requires polls != [] && Distinct(files) && GrowingFiles(t, files, polls, W)
    requires Gained(Reading(t, [], [], false), ReadMany(t, files, polls[..|polls| - 1]), p, W(p))
    ensures Gained(Reading(t, [], [], false), ReadMany(t, files, polls), p, W(p))
  {
    hide ReadAll, Between, ForPath, Aligned, Appending;
    var n := |polls| - 1;
    var r := ReadMany(t, files, polls[..n]);
    var s := ReadNew(r.tailer, files, polls[n]);
    if p in files { assert Appending(ReadMany(t, files, polls[..n]).tailer, p, W(p), polls[n](p)); }
    ReadPathAppending(Reading(r.tailer, [], [], false), files, polls[n], p, W(p));
    GainedOnTop(r, s, p, W(p), r.resets + s.resets, r.failed || s.failed);
    GainedTwice(Reading(t, [], [], false), r, ReadMany(t, files, polls), p, W(p));
  }

  lemma {:induction false} ManyGained(t: TailerState, files: seq<string>, polls: seq<string -> Observation>,
                                      W: string -> string, p: string)
    requires Distinct(files) && GrowingFiles(t, files, polls, W) && Aligned(t, p, W(p))
    ensures Gained(Reading(t, [], [], false), ReadMany(t, files, polls), p, W(p))
    decreases |polls|
  {
    hide ReadNew, Between, Gained, Aligned, Distinct, GrowingFiles;
    if polls == [] {
      GainedSelf(Reading(t, [], [], false), p, W(p));
    } else {
      hide ReadMany;
      GrowingPrefix(t, files, polls, W);
      ManyGained(t, files, polls[..|polls| - 1], W, p);
      OneMoreGained(t, files, polls, W, p);
    }
  }

  /** Over any number of polls of growing files, whatever grew in between: the lines of a file
      are the complete lines between its first and its last read position, no more and no less,
      so a partial tail is never given out. */
  lemma TailingIndependent(t: TailerState, files: seq<string>, polls: seq<string -> Observation>,
                           W: string -> string, p: string)
    requires Distinct(files) && GrowingFiles(t, files, polls, W) && Aligned(t, p, W(p))
    ensures Gained(Reading(t, [], [], false), ReadMany(t, files, polls), p, W(p))
    ensures var a, b := Get(t.readOffsets, p), Get(ReadMany(t, files, polls).tailer.readOffsets, p);
            && ForPath(ReadMany(t, files, polls).lines, p) == Between(p, W(p), a, b)
            && Tiles(W(p)[..b], a, ForPath(ReadMany(t, files, polls).lines, p))
  {
    hide ReadNew, ReadMany, Between, Tiles, GrowingFiles, Distinct;
    ManyGained(t, files, polls, W, p);
    var s := ReadMany(t, files, polls);
    var a, b := Get(t.readOffsets, p), Get(s.tailer.readOffsets, p);
    assert [] + Between(p, W(p), a, b) == Between(p, W(p), a, b);
    BetweenTiles(p, W(p), a, b);
  }

  lemma GrowingPrefix(t: TailerState, files: seq<string>, polls: seq<string -> Observation>, W: string -> string)
    requires polls != [] && GrowingFiles(t, files, polls, W)
    ensures GrowingFiles(t, files, polls[..|polls| - 1], W)
  {
    hide ReadMany, Appending;
    var n := |polls| - 1;
    forall i, q | 0 <= i < n && q in files
      ensures Appending(ReadMany(t, files, polls[..n][..i]).tailer, q, W(q), polls[..n][i](q))
    {
      assert polls[..n][..i] == polls[..i] && polls[..n][i] == polls[i];
    }
  }

  // ---------------------------------------------------------------- commits

  /** The guard of a commit: every safe offset is non-negative and not past what was read. */
  predicate CommitAllowed(t: TailerState, safe: map<string, int>) {
    forall p | p in safe :: p in t.readOffsets && 0 <= safe[p] <= t.readOffsets[p]
  }

  /** A commit touches `p` only upwards, or when the read position fell below it. */
  predicate Moves(t: TailerState, safe: map<string, int>, p: string) {
    p in safe && (Get(t.readOffsets, p) < Get(t.offsets, p) || Get(t.offsets, p) < safe[p])
  }

  function Candidate(t: TailerState, safe: map<string, int>): Offsets
    requires CommitAllowed(t, safe)
  {
    map p | p in t.offsets.Keys + safe.Keys && (p in t.offsets || Moves(t, safe, p)) ::
      if Moves(t, safe, p) then safe[p] else t.offsets[p]
  }

  /** After a commit every committed path stands at or below its read position; it moved
      down only if the read position had fallen below it, and it ends exactly at the safe
      offset unless it already stood above that and the read position covers it. */
  lemma CommitMeaning(t: TailerState, safe: map<string, int>, p: string)
    requires CommitAllowed(t, safe)
    ensures var c := Candidate(t, safe);
            && (p !in safe ==> Get(c, p) == Get(t.offsets, p))
            && (p in safe ==> Get(c, p) <= Get(t.readOffsets, p))
            && (Get(c, p) < Get(t.offsets, p) ==> Get(t.readOffsets, p) < Get(t.offsets, p))
            && (p in safe ==> (Get(c, p) == safe[p] <==>
                  !(safe[p] < Get(t.offsets, p) <= Get(t.readOffsets, p))))
            && (Get(c, p) == Get(t.offsets, p) || (p in safe && Get(c, p) == safe[p]))
  {
  }

  /** The offsets file as a starting agent finds it. */
  datatype OffsetsFile = Absent | Unreadable | Undecodable | Saved(offsets: map<string, int>)

  function Load(file: OffsetsFile): Option<TailerState> {
    match file
    case Absent => Some(TailerState(map[], map[]))
    case Unreadable => None
    case Undecodable => None
    case Saved(m) =>
      if exists p | p in m :: m[p] < 0 then None
      else var offsets: Offsets := map p | p in m :: m[p]; Some(TailerState(offsets, offsets))
  }

  // ---------------------------------------------------------------- where a restart begins

  /** One commit: what has been read when it is tried, and the safe offsets. */
  datatype OffsetsCommit = OffsetsCommit(read: Offsets, safe: map<string, int>)

  /** The commit is carried out: none of its safe offsets is refused. */
  predicate Allowed(save: OffsetsCommit) {
    CommitAllowed(TailerState(map[], save.read), save.safe)
  }

  /** The committed offsets after a row of commits; a commit that is refused changes nothing. */
  function SaveAll(offsets: Offsets, saves: seq<OffsetsCommit>): Offsets {
    if saves == [] then offsets
    else
      var before, last := SaveAll(offsets, saves[..|saves| - 1]), saves[|saves| - 1];
      if Allowed(last) then Candidate(TailerState(before, last.read), last.safe) else before
  }

  /** The last safe offset of `p` that was carried out, or -1. */
  function LastSafe(saves: seq<OffsetsCommit>, p: string): (n: int)
    ensures n >= -1
  {
    if saves == [] then -1
    else
      var last := saves[|saves| - 1];
      if Allowed(last) && p in last.safe then last.safe[p] else LastSafe(saves[..|saves| - 1], p)
  }

  /** Up to where the commits carried out say that `p` has been processed. */
  function SafeUpTo(saves: seq<OffsetsCommit>, p: string): nat {
    if LastSafe(saves, p) == -1 then 0 else LastSafe(saves, p)
  }

  /** The safe offsets of `p` that are carried out never fall. */
  predicate SafeRises(saves: seq<OffsetsCommit>, p: string) {
    saves == [] ||
    var before, last := saves[..|saves| - 1], saves[|saves| - 1];
    SafeRises(before, p) && (Allowed(last) && p in last.safe ==> LastSafe(before, p) <= last.safe[p])
  }

  /** The commit is refused, says nothing about `p`, or finds that the offset `c` stands above
      the safe offset and is covered by what has been read. */
  predicate LeavesAlone(c: nat, save: OffsetsCommit, p: string) {
    Allowed(save) && p in save.safe ==> save.safe[p] < c <= Get(save.read, p)
  }

  predicate AllLeaveAlone(c: nat, saves: seq<OffsetsCommit>, p: string) {
    forall i | 0 <= i < |saves| :: LeavesAlone(c, saves[i], p)
  }

  /** One more commit that is carried out. */
  lemma SaveStep(c: nat, before: Offsets, save: OffsetsCommit, p: string, k: int)
    requires Allowed(save)
    requires p in save.safe ==> k <= save.safe[p]
    ensures var after := Candidate(TailerState(before, save.read), save.safe);
            && (p !in save.safe ==> Get(after, p) == Get(before, p))
            && (p in save.safe && Get(before, p) == k ==> Get(after, p) == save.safe[p])
            && (p in save.safe && Get(before, p) == c ==> Get(after, p) == if LeavesAlone(c, save, p) then c else save.safe[p])
  {
  }

  /** What a row of commits with rising safe offsets makes of the committed offset of `p`: it
      stays if every commit left it alone, and otherwise it is the last safe offset. */
  lemma {:induction false} SaveAllMeaning(offsets: Offsets, saves: seq<OffsetsCommit>, p: string)
    requires SafeRises(saves, p)
    ensures AllLeaveAlone(Get(offsets, p), saves, p) ==>
              Get(SaveAll(offsets, saves), p) == Get(offsets, p) && (LastSafe(saves, p) == -1 || LastSafe(saves, p) < Get(offsets, p))
    ensures !AllLeaveAlone(Get(offsets, p), saves, p) ==> Get(SaveAll(offsets, saves), p) == LastSafe(saves, p)
    decreases |saves|
  {
    if saves != [] {
      var n := |saves| - 1;
      var before, last := SaveAll(offsets, saves[..n]), saves[n];
      AllButLast(Get(offsets, p), saves, p);
      SaveAllMeaning(offsets, saves[..n], p);
      hide AllLeaveAlone, Candidate, Allowed;
      if Allowed(last) { SaveStep(Get(offsets, p), before, last, p, LastSafe(saves[..n], p)); }
    }
  }

  lemma AllButLast(c: nat, saves: seq<OffsetsCommit>, p: string)
    requires saves != []
    ensures var n := |saves| - 1;
            AllLeaveAlone(c, saves, p) <==> AllLeaveAlone(c, saves[..n], p) && LeavesAlone(c, saves[n], p)
  {
    hide LeavesAlone;
    var n := |saves| - 1;
    forall i | 0 <= i < n ensures saves[..n][i] == saves[i] {}
  }

  /** One row of commits after another. */
  lemma {:induction false} SaveMore(offsets: Offsets, a: seq<OffsetsCommit>, b: seq<OffsetsCommit>)
    ensures SaveAll(offsets, a + b) == SaveAll(SaveAll(offsets, a), b)
    decreases |b|
  {
    hide Candidate, Allowed;
    if b == [] {
      assert a + b == a;
    } else {
      var n := |b| - 1;
      assert (a + b)[..|a| + n] == a + b[..n] && (a + b)[|a| + n] == b[n];
      SaveMore(offsets, a, b[..n]);
    }
  }

  /** One more commit that is carried out. */
  lemma SafeSnoc(saves: seq<OffsetsCommit>, save: OffsetsCommit, p: string)
    requires Allowed(save)
    ensures LastSafe(saves + [save], p) == if p in save.safe then save.safe[p] else LastSafe(saves, p)
    ensures SafeRises(saves + [save], p) <==> SafeRises(saves, p) && (p in save.safe ==> LastSafe(saves, p) <= save.safe[p])
  {
    hide Allowed;
    assert (saves + [save])[..|saves|] == saves;
  }

  /** Beginning at `r` instead of `k`, a reader of `w` misses the beginning of the first complete
      line behind `k`, and with it the line or a part of it. */
  predicate MissesLine(w: string, k: nat, r: nat) {
    k < r && k <= |w| && LineEnd(w, k) != 0
  }

  /** What missing means: the line is not given out at all, or cut. */
  lemma MissedLine(p: string, w: string, k: nat, r: nat)
    requires MissesLine(w, k, r) && r <= |w|
    ensures var e := LineEnd(w, k);
            && Lines(p, w, k) != [] && Lines(p, w, k)[0] == FileLine(p, Bare(w, k, e), e)
            && (e <= r ==> forall l | l in Lines(p, w, r) :: l.endOffset > e)
            && (r < e ==> Lines(p, w, r) != [] && Lines(p, w, r)[0] == FileLine(p, Bare(w, r, e), e))
  {
    hide LineText, Bare;
    var e := LineEnd(w, k);
    LineTextMeaning(w, k, e);
    if e <= r {
      LinesShape(p, w, r);
    } else {
      assert w[r..][e - 1 - r] == '\n';
      LineEndFrom(w, k, r);
      LineTextMeaning(w, r, e);
    }
  }

  /** The next newline from inside a line is the line's own. */
  lemma {:induction false} LineEndFrom(w: string, k: nat, r: nat)
    requires k <= r <= |w| && LineEnd(w, k) != 0 && r < LineEnd(w, k)
    ensures LineEnd(w, r) == LineEnd(w, k)
    decreases r - k
  {
    if k < r { LineEndFrom(w, k + 1, r); }
  }

  /** Where a restart begins. The offset of a file stood at `c` when the file was started over
      from 0, and commits followed whose safe offsets never fall; those carried out say that it
      has been processed up to `k`. A tailer that loads the offsets begins at `k`, unless every
      commit carried out left the offset alone and it lies above `k`: then it begins at `c`. So it
      misses the first complete line behind `k`, of whatever content, if and only if that is so
      and there is such a line. */
  lemma RestartBegins(offsets: Offsets, saves: seq<OffsetsCommit>, p: string, w: string) returns (t: TailerState)
    requires SafeRises(saves, p)
    ensures Load(OffsetsFile.Saved(SaveAll(offsets, saves))) == Some(t)
    ensures var c, k := Get(offsets, p), SafeUpTo(saves, p);
            && Get(t.readOffsets, p) == (if AllLeaveAlone(c, saves, p) && k < c then c else k)
            && (MissesLine(w, k, Get(t.readOffsets, p)) <==>
                  AllLeaveAlone(c, saves, p) && k < c && k <= |w| && LineEnd(w, k) != 0)
  {
    hide AllLeaveAlone, SaveAll, SafeRises;
    var m: map<string, int> := SaveAll(offsets, saves);
    SaveAllMeaning(offsets, saves, p);
    if LastSafe(saves, p) == -1 { hide LastSafe; }
    t := TailerState(SaveAll(offsets, saves), SaveAll(offsets, saves));
    assert (map q | q in m :: m[q]) == m;
  }

  /** A poll that finds the file cut starts it over: everything it then gives out ends on a line
      boundary of the new content, and so does the read position. */
  lemma ResetReads(r: Reading, p: string, o: Observation, w: string)
    requires o.Opened? && o.seekOk && o.size < Get(r.tailer.readOffsets, p) && o.data <= w
    ensures var s := ReadOne(r, p, o);
            && s.resets == r.resets + [p] && s.lines == r.lines + Between(p, w, 0, Stop(o.data, 0))
            && Get(s.tailer.readOffsets, p) == Stop(o.data, 0) && Boundary(w, Stop(o.data, 0))
            && forall l | l in Between(p, w, 0, Stop(o.data, 0)) :: l.endOffset > 0 && Boundary(w, l.endOffset)
  {
    StopLines(p, o.data, w, 0);
    LinesShape(p, w[..Stop(o.data, 0)], 0);
  }

  lemma NothingCommitted(t: TailerState)
    ensures CommitAllowed(t, map[]) && Candidate(t, map[]) == t.offsets
  {
  }

  /** What a commit of the paths in `safe` makes of one more path. */
  lemma CandidateGrows(t: TailerState, safe: map<string, int>, p: string, n: int)
    requires CommitAllowed(t, safe) && p !in safe && p in t.readOffsets && 0 <= n <= t.readOffsets[p]
    ensures CommitAllowed(t, safe[p := n])
    ensures Get(Candidate(t, safe), p) == Get(t.offsets, p)
    ensures var moves := Get(t.readOffsets, p) < Get(t.offsets, p) || Get(t.offsets, p) < n;
            Candidate(t, safe[p := n]) == if moves then Candidate(t, safe)[p := n] else Candidate(t, safe)
  {
    var c, d := Candidate(t, safe), Candidate(t, safe[p := n]);
    forall q | q != p
      ensures q in d <==> q in c
      ensures q in c ==> d[q] == c[q]
    {
      assert Moves(t, safe[p := n], q) <==> Moves(t, safe, q);
    }
  }

  /** One more line read. */
  lemma LineRead(path: string, w: string, a: nat, before: seq<FileLine>)
    requires a <= |w| && LineEnd(w, a) != 0
    ensures var e := LineEnd(w, a);
            && Stop(w, a) == Stop(w, e)
            && before + Lines(path, w, a) == (before + [FileLine(path, LineText(w[a..e]), e)]) + Lines(path, w, e)
  {
    hide LineText;
  }

  /** The lines of one reading cut the bytes read up to the last newline. */
  lemma LinesRead(path: string, data: string, offset: nat)
    ensures offset <= |data| ==>
              && Tiles(data[..Stop(data, offset)], offset, Lines(path, data, offset))
              && forall l | l in Lines(path, data, offset) :: l.path == path
  {
    hide Tiles, Lines;
    if offset <= |data| {
      StopLines(path, data, data, offset);
      BetweenTiles(path, data, offset, Stop(data, offset));
      LinesShape(path, data, offset);
    }
  }

  class Tailer {
    const files: seq<string>
    var offsets: Offsets
    var readOffsets: Offsets

    function State(): TailerState
      reads this
    {
      TailerState(offsets, readOffsets)
    }

    constructor (files: seq<string>, loaded: TailerState)
      ensures this.files == files && State() == loaded
    {
      this.files := files;
      offsets, readOffsets := loaded.offsets, loaded.readOffsets;
    }

    static method NewTailer(files: seq<string>, file: OffsetsFile) returns (tailer: Tailer?)
      ensures tailer == null <==> Load(file) == None
      ensures tailer != null ==> fresh(tailer) && tailer.files == files && Some(tailer.State()) == Load(file)
      ensures tailer == null <==>
                file.Unreadable? || file.Undecodable? || (file.Saved? && exists p :: p in file.offsets && file.offsets[p] < 0)
      ensures tailer != null ==>
                && tailer.readOffsets == tailer.offsets
                && tailer.offsets == if file.Saved? then file.offsets else map[]
    {
      match Load(file)
      case None => tailer := null;
      case Some(loaded) => tailer := new Tailer(files, loaded);
    }

    /** The reader's loop over one open file: complete lines only, a partial tail stays. */
    static method ReadLines(path: string, data: string, offset: nat)
      returns (lines: seq<FileLine>, position: nat)
      ensures lines == if offset <= |data| then Lines(path, data, offset) else []
      ensures position == if offset <= |data| then Stop(data, offset) else offset
      ensures forall l | l in lines :: l.path == path
      ensures if offset <= |data| then
                && offset <= position <= |data| && '\n' !in data[position..] && Tiles(data[..position], offset, lines)
              else lines == []
    {
      hide LineText, Tiles;
      lines, position := [], offset;
      while position < |data|
        invariant offset <= |data| ==> offset <= position <= |data|
        invariant offset <= |data| ==> Stop(data, position) == Stop(data, offset)
        invariant offset <= |data| ==> lines + Lines(path, data, position) == Lines(path, data, offset)
        invariant offset > |data| ==> position == offset && lines == []
      {
        var e := LineEnd(data, position);
        if e == 0 { break; }
        LineRead(path, data, position, lines);
        lines := lines + [FileLine(path, LineText(data[position..e]), e)];
        position := e;
      }
      LinesRead(path, data, offset);
    }

    /** Stages the complete new lines of every file without persisting their offsets. */
    method ReadNewLines(obs: string -> Observation)
      returns (lines: seq<FileLine>, resetPaths: seq<string>, failed: bool)
      modifies this`readOffsets
      ensures Reading(State(), lines, resetPaths, failed) == ReadNew(old(State()), files, obs)
    {
      lines, resetPaths, failed := [], [], false;
      for i := 0 to |files|
        invariant offsets == old(offsets)
        invariant ReadAll(Reading(State(), lines, resetPaths, failed), files[i..], obs)
               == ReadNew(old(State()), files, obs)
      {
        var path := files[i];
        var o := obs(path);
        assert files[i..][1..] == files[i + 1..];
        if o.Missing? {
          continue;
        }
        if !o.Opened? {
          failed := true;
          continue;
        }
        var offset := Get(readOffsets, path);
        if o.size < offset {
          offset := 0;
          readOffsets := readOffsets[path := 0];
          resetPaths := resetPaths + [path];
        }
        if !o.seekOk {
          failed := true;
          continue;
        }
        var found, position := ReadLines(path, o.data, offset);
        lines := lines + found;
        failed := failed || !o.readOk;
        readOffsets := readOffsets[path := position];
      }
    }

    /** Persists safe offsets; refused as a whole when one of them is invalid. */
    method CommitOffsets(safeOffsets: map<string, int>, saveOk: bool) returns (ok: bool)
      modifies this`offsets
      ensures ok == (CommitAllowed(old(State()), safeOffsets) && saveOk)
      ensures offsets == if ok then Candidate(old(State()), safeOffsets) else old(offsets)
    {
      hide Candidate, Moves;
      var candidate := offsets;
      var todo := safeOffsets.Keys;
      ghost var handled: map<string, int> := map[];
      NothingCommitted(State());
      while todo != {}
        invariant todo !! handled.Keys && todo + handled.Keys == safeOffsets.Keys
        invariant forall p | p in handled :: handled[p] == safeOffsets[p]
        invariant offsets == old(offsets)
        invariant CommitAllowed(State(), handled) && candidate == Candidate(State(), handled)
      {
        var path :| path in todo;
        todo := todo - {path};
        var safeOffset := safeOffsets[path];
        if path !in readOffsets || safeOffset < 0 || safeOffset > readOffsets[path] {
          return false;
        }
        CandidateGrows(State(), handled, path, safeOffset);
        handled := handled[path := safeOffset];
        if readOffsets[path] < Get(offsets, path) {
          candidate := candidate[path := safeOffset];
        } else if safeOffset > Get(candidate, path) {
          candidate := candidate[path := safeOffset];
        }
      }
      assert handled == safeOffsets;
      if !saveOk {
        return false;
      }
      offsets := candidate;
      return true;
    }
  }
}
