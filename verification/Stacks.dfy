/**
 Stack-trace assembly: per file, an entry line is held back until the next
 entry line or an idle flush, and continuation lines are joined to it.
 */
module Stacks {
  import opened Tailing
  import opened Text

  // ---------------------------------------------------------------- continuation lines

  /** Trimming matters only at the right end here, where neither prefix ends in a space. */
  predicate IsContinuation(line: string) {
    line != "" &&
    (SpaceLength(line) > 0 || StartsWith(line, "Caused by:") || StartsWith(line, "..."))
  }

  // ---------------------------------------------------------------- the assembler

  datatype StackState = StackState(pending: map<string, FileLine>, updatedAt: map<string, int>)

  const EMPTY := StackState(map[], map[])

  function Extend(entry: FileLine, line: FileLine): FileLine {
    FileLine(entry.path, entry.text + "\n" + line.text, line.endOffset)
  }

  function Add(s: StackState, line: FileLine, now: int): (StackState, seq<FileLine>) {
    if IsContinuation(line.text) then
      if line.path in s.pending then
        (StackState(s.pending[line.path := Extend(s.pending[line.path], line)],
                    s.updatedAt[line.path := now]), [])
      else (s, [line])
    else
      (StackState(s.pending[line.path := line], s.updatedAt[line.path := now]),
       if line.path in s.pending then [s.pending[line.path]] else [])
  }

  function Flush(s: StackState, path: string): (StackState, Option<FileLine>) {
    (StackState(s.pending - {path}, s.updatedAt - {path}), Open(s, path))
  }

  predicate Idle(s: StackState, path: string, now: int, idleFor: int) {
    path in s.pending && now - (if path in s.updatedAt then s.updatedAt[path] else 0) >= idleFor
  }

  function FlushIdle(s: StackState, path: string, now: int, idleFor: int): (StackState, Option<FileLine>) {
    if Idle(s, path, now, idleFor) then Flush(s, path) else (s, None)
  }

  function Open(s: StackState, path: string): Option<FileLine> {
    if path in s.pending then Some(s.pending[path]) else None
  }

  class StackAssembler {
    var pending: map<string, FileLine>
    var updatedAt: map<string, int>

    function State(): StackState
      reads this
    {
      StackState(pending, updatedAt)
    }

    constructor ()
      ensures State() == EMPTY
    {
      pending, updatedAt := map[], map[];
    }

    method AddLine(line: FileLine, now: int) returns (completed: seq<FileLine>)
      modifies this
      ensures (State(), completed) == Add(old(State()), line, now)
    {
      if IsContinuation(line.text) {
        if line.path in pending {
          var previous := pending[line.path];
          previous := previous.(text := previous.text + "\n" + line.text, endOffset := line.endOffset);
          pending := pending[line.path := previous];
          updatedAt := updatedAt[line.path := now];
          return [];
        }
        return [line];
      }
      completed := [];
      if line.path in pending {
        completed := [pending[line.path]];
      }
      pending := pending[line.path := line];
      updatedAt := updatedAt[line.path := now];
    }

    method FlushPath(path: string) returns (line: Option<FileLine>)
      modifies this
      ensures (State(), line) == Flush(old(State()), path)
    {
      line := if path in pending then Some(pending[path]) else None;
      pending := pending - {path};
      updatedAt := updatedAt - {path};
    }

    method FlushIdlePath(path: string, now: int, idleFor: int) returns (line: Option<FileLine>)
      modifies this
      ensures (State(), line) == FlushIdle(old(State()), path, now, idleFor)
    {
      if path !in pending {
        return None;
      }
      if now - (if path in updatedAt then updatedAt[path] else 0) < idleFor {
        return None;
      }
      line := FlushPath(path);
    }
  }

  // ---------------------------------------------------------------- interleavings and flushes

  /** What can happen to the assembler, in any order and for any files. */
  datatype Act = Feed(line: FileLine, now: int) | Release(path: string) | ReleaseIdle(path: string, now: int, idleFor: int)

  function Opt(o: Option<FileLine>): seq<FileLine> {
    if o.Some? then [o.value] else []
  }

  function Perform(s: StackState, act: Act): (StackState, seq<FileLine>) {
    match act
    case Feed(line, now) => Add(s, line, now)
    case Release(path) => var (t, o) := Flush(s, path); (t, Opt(o))
    case ReleaseIdle(path, now, idleFor) => var (t, o) := FlushIdle(s, path, now, idleFor); (t, Opt(o))
  }

  function PerformAll(s: StackState, acts: seq<Act>): (StackState, seq<FileLine>)
    decreases |acts|
  {
    if acts == [] then (s, [])
    else
      var (t, out) := Perform(s, acts[0]);
      var (u, rest) := PerformAll(t, acts[1..]);
      (u, out + rest)
  }

  function Fed(acts: seq<Act>): seq<FileLine> {
    if acts == [] then [] else (if acts[0].Feed? then [acts[0].line] else []) + Fed(acts[1..])
  }

  function About(act: Act): string {
    if act.Feed? then act.line.path else act.path
  }

  function OnlyFor(acts: seq<Act>, p: string): seq<Act> {
    if acts == [] then [] else (if About(acts[0]) == p then [acts[0]] else []) + OnlyFor(acts[1..], p)
  }

  /** The two states look the same to file `p`. */
  predicate SameFor(s: StackState, t: StackState, p: string) {
    && Open(s, p) == Open(t, p)
    && (p in s.updatedAt <==> p in t.updatedAt)
    && (p in s.updatedAt ==> s.updatedAt[p] == t.updatedAt[p])
  }

  predicate OwnPaths(s: StackState) {
    forall p | p in s.pending :: s.pending[p].path == p
  }

  lemma PerformPaths(s: StackState, act: Act)
    requires OwnPaths(s)
    ensures OwnPaths(Perform(s, act).0)
    ensures forall l | l in Perform(s, act).1 :: l.path == About(act)
  {
  }

  lemma PerformAlone(s: StackState, t: StackState, act: Act, p: string)
    requires OwnPaths(s) && OwnPaths(t) && SameFor(s, t, p)
    ensures About(act) != p ==> SameFor(Perform(s, act).0, t, p)
    ensures About(act) == p ==> SameFor(Perform(s, act).0, Perform(t, act).0, p)
                                && Perform(s, act).1 == Perform(t, act).1
  {
  }

  /** Feeding an interleaving of files, with any flushes, gives each file what it would
      have got alone. */
  lemma {:induction false} FilesAreIndependent(s: StackState, t: StackState, acts: seq<Act>, p: string)
    requires OwnPaths(s) && OwnPaths(t) && SameFor(s, t, p)
    ensures SameFor(PerformAll(s, acts).0, PerformAll(t, OnlyFor(acts, p)).0, p)
    ensures ForPath(PerformAll(s, acts).1, p) == PerformAll(t, OnlyFor(acts, p)).1
    decreases |acts|
  {
    if acts != [] {
      var act := acts[0];
      var (s1, out) := Perform(s, act);
      PerformPaths(s, act);
      PerformPaths(t, act);
      PerformAlone(s, t, act, p);
      ForPathUniform(out, About(act), p);
      ForPathAppend(out, PerformAll(s1, acts[1..]).1, p);
      if About(act) == p {
        FilesAreIndependent(s1, Perform(t, act).0, acts[1..], p);
        assert OnlyFor(acts, p)[1..] == OnlyFor(acts[1..], p);
      } else {
        FilesAreIndependent(s1, t, acts[1..], p);
        assert OnlyFor(acts, p) == OnlyFor(acts[1..], p);
      }
    }
  }

  // ---------------------------------------------------------------- what continues, and what is idle

  /** A line continues an entry when it begins with white space, with "Caused by:" or with three dots. */
  lemma ContinuationMeaning(line: string)
    ensures IsContinuation(line)
       <==> (BeginsWhite(line) || "Caused by:" <= line || "..." <= line)
  {
    BeginsMeaning(line);
    hide SpaceLength, BeginsWhite;
    if "Caused by:" <= line { assert line[..10] == "Caused by:"; }
    if "..." <= line { assert line[..3] == "..."; }
  }

  /** When the last line of `p` came in. */
  function LastFed(acts: seq<Act>, p: string): Option<int>
    decreases |acts|
  {
    if acts == [] then None
    else if LastFed(acts[1..], p).Some? then LastFed(acts[1..], p)
    else if acts[0].Feed? && acts[0].line.path == p then Some(acts[0].now)
    else None
  }

  lemma {:induction false} HeldSince(s: StackState, acts: seq<Act>, p: string)
    requires p in s.pending ==> p in s.updatedAt
    ensures var t := PerformAll(s, acts).0;
            p in t.pending ==>
              && p in t.updatedAt
              && (LastFed(acts, p).Some? ==> t.updatedAt[p] == LastFed(acts, p).value)
              && (LastFed(acts, p).None? ==> p in s.pending && t.updatedAt[p] == s.updatedAt[p])
    decreases |acts|
  {
    if acts != [] {
      hide IsContinuation;
      var s1 := Perform(s, acts[0]).0;
      HeldSince(s1, acts[1..], p);
    }
  }

  /** Whatever came before, an idle flush hands out the held-back entry of a file exactly when the
      last line of that file, of whatever kind, came in at least the idle time ago. */
  lemma IdleMeaning(acts: seq<Act>, p: string, now: int, idleFor: int)
    ensures var t := PerformAll(EMPTY, acts).0;
            && (Open(t, p).Some? ==> LastFed(acts, p).Some?)
            && FlushIdle(t, p, now, idleFor).1
            == if Open(t, p).Some? && now - LastFed(acts, p).value >= idleFor then Open(t, p) else None
  {
    HeldSince(EMPTY, acts, p);
    hide PerformAll;
  }

  // ---------------------------------------------------------------- nothing lost, nothing reordered

  /** The texts of `ls`, one per line. */
  function Join(ls: seq<FileLine>): string {
    if ls == [] then "" else Join(ls[..|ls| - 1]) + "\n" + ls[|ls| - 1].text
  }

  lemma {:induction false} JoinAppend(a: seq<FileLine>, b: seq<FileLine>)
    ensures Join(a + b) == Join(a) + Join(b)
  {
    if b == [] {
      assert a + b == a;
    } else {
      assert (a + b)[..|a + b| - 1] == a + b[..|b| - 1];
      JoinAppend(a, b[..|b| - 1]);
    }
  }

  predicate Rising(ls: seq<FileLine>) {
    forall i, j | 0 <= i < j < |ls| :: ls[i].endOffset < ls[j].endOffset
  }

  lemma FedFor(act: Act, p: string)
    ensures ForPath(Fed([act]), p) == if act.Feed? && act.line.path == p then [act.line] else []
  {
    assert [act][1..] == [];
    var fed := if act.Feed? then [act.line] else [];
    assert Fed([act]) == fed && (fed != [] ==> fed[1..] == []);
  }

  lemma OutFor(s: StackState, act: Act, p: string)
    requires OwnPaths(s)
    ensures ForPath(Perform(s, act).1, p) == if p == About(act) then Perform(s, act).1 else []
  {
    hide Perform, About, OwnPaths;
    PerformPaths(s, act);
    ForPathUniform(Perform(s, act).1, About(act), p);
  }

  /** Except when a line is joined to a held-back entry, lines are only handed on. */
  lemma HandedOn(s: StackState, act: Act, p: string)
    requires OwnPaths(s)
    requires !(act.Feed? && act.line.path == p && IsContinuation(act.line.text) && p in s.pending)
    ensures Opt(Open(s, p)) + ForPath(Fed([act]), p) == ForPath(Perform(s, act).1, p) + Opt(Open(Perform(s, act).0, p))
  {
    hide ForPath, Fed, IsContinuation;
    FedFor(act, p);
    OutFor(s, act, p);
  }

  /** One action conserves the text of its file: held-back entry plus line in, outputs
      plus held-back entry out. */
  lemma PerformConserves(s: StackState, act: Act, p: string)
    requires OwnPaths(s)
    ensures Join(Opt(Open(s, p)) + ForPath(Fed([act]), p))
         == Join(ForPath(Perform(s, act).1, p) + Opt(Open(Perform(s, act).0, p)))
  {
    hide ForPath, Fed, IsContinuation, Join;
    if act.Feed? && act.line.path == p && IsContinuation(act.line.text) && p in s.pending {
      FedFor(act, p);
      OutFor(s, act, p);
      JoinTwo(s.pending[p], act.line);
    } else {
      HandedOn(s, act, p);
    }
  }

  lemma JoinTwo(e: FileLine, l: FileLine)
    ensures Join([e] + [l]) == Join([] + [Extend(e, l)])
  {
    assert [Extend(e, l)][..0] == [] && [e][..0] == [] && ([e] + [l])[..1] == [e];
    assert Join([Extend(e, l)]) == Join([]) + "\n" + Extend(e, l).text;
    assert Join([e]) == Join([]) + "\n" + e.text;
    assert Join([e] + [l]) == Join([e]) + "\n" + l.text;
    assert [] + [Extend(e, l)] == [Extend(e, l)];
  }

  lemma FedHead(acts: seq<Act>, p: string)
    requires acts != []
    ensures ForPath(Fed(acts), p) == ForPath(Fed([acts[0]]), p) + ForPath(Fed(acts[1..]), p)
  {
    hide ForPath;
    FedCons(acts);
    ForPathAppend(Fed([acts[0]]), Fed(acts[1..]), p);
  }

  lemma FedCons(acts: seq<Act>)
    requires acts != []
    ensures Fed(acts) == Fed([acts[0]]) + Fed(acts[1..])
  {
    assert [acts[0]][1..] == [];
  }

  lemma PerformCons(s: StackState, acts: seq<Act>, p: string)
    requires acts != []
    ensures var (s1, out) := Perform(s, acts[0]);
            var (t, rest) := PerformAll(s1, acts[1..]);
            PerformAll(s, acts) == (t, out + rest) && ForPath(out + rest, p) == ForPath(out, p) + ForPath(rest, p)
  {
    hide Perform, ForPath;
    var (s1, out) := Perform(s, acts[0]);
    ForPathAppend(out, PerformAll(s1, acts[1..]).1, p);
  }

  /** Under any flushes, a file's outputs followed by its held-back entry reproduce its
      input lines in order. */
  lemma {:induction false} OutputsReproduceInput(s: StackState, acts: seq<Act>, p: string)
    requires OwnPaths(s)
    ensures var (t, out) := PerformAll(s, acts);
            Join(Opt(Open(s, p)) + ForPath(Fed(acts), p)) == Join(ForPath(out, p) + Opt(Open(t, p)))
    decreases |acts|
  {
    hide Perform, Open, Opt, Join, About, OwnPaths, ForPath;
    if acts == [] {
      EmptyRises(Opt(Open(s, p)), p);
    } else {
      var (s1, out) := Perform(s, acts[0]);
      PerformPaths(s, acts[0]);
      PerformConserves(s, acts[0], p);
      FedHead(acts, p);
      PerformCons(s, acts, p);
      OutputsReproduceInput(s1, acts[1..], p);
      hide PerformAll, Fed;
      var (t, rest) := PerformAll(s1, acts[1..]);
      JoinChain(Opt(Open(s, p)), ForPath(Fed([acts[0]]), p), ForPath(Fed(acts[1..]), p),
                ForPath(out, p), Opt(Open(s1, p)), ForPath(rest, p), Opt(Open(t, p)));
    }
  }

  lemma JoinChain(a: seq<FileLine>, b: seq<FileLine>, c: seq<FileLine>,
                  x: seq<FileLine>, y: seq<FileLine>, r: seq<FileLine>, z: seq<FileLine>)
    requires Join(a + b) == Join(x + y) && Join(y + c) == Join(r + z)
    ensures Join(a + (b + c)) == Join((x + r) + z)
  {
    JoinAppend(a, b + c);
    JoinAppend(b, c);
    JoinAppend(x + r, z);
    JoinAppend(x, r);
    JoinAppend(a, b);
    JoinAppend(x, y);
    JoinAppend(y, c);
    JoinAppend(r, z);
    Regroup(Join(a), Join(b), Join(c), Join(x), Join(y), Join(r), Join(z));
  }

  lemma Regroup(a: string, b: string, c: string, x: string, y: string, r: string, z: string)
    requires a + b == x + y && y + c == r + z
    ensures a + (b + c) == (x + r) + z
  {
    assert a + (b + c) == (a + b) + c;
    assert (x + y) + c == x + (y + c);
    assert x + (r + z) == (x + r) + z;
  }

  predicate Above(ls: seq<FileLine>, b: int) {
    forall l | l in ls :: l.endOffset > b
  }

  lemma RisingTail(l: FileLine, rest: seq<FileLine>)
    requires Rising([l] + rest)
    ensures Rising(rest) && Above(rest, l.endOffset)
  {
    var all := [l] + rest;
    forall i | 0 <= i < |rest| ensures rest[i] == all[i + 1] && rest[i].endOffset > l.endOffset {
      assert all[0].endOffset < all[i + 1].endOffset;
    }
  }

  lemma RisingAfter(l: FileLine, rest: seq<FileLine>)
    requires Rising(rest) && Above(rest, l.endOffset)
    ensures Rising([l] + rest)
  {
    assert forall i | 0 <= i < |rest| :: rest[i] in rest;
  }

  /** What one action does to a file: `open` and `fed` come in, `out` and `kept` go out. Either
      nothing goes out, and the last line in is the last line of what is kept, or the first
      line of what was there goes out and the rest is kept. */
  predicate StepShape(open: seq<FileLine>, fed: seq<FileLine>, out: seq<FileLine>, kept: seq<FileLine>) {
    if out == [] then
      |kept| == (if open + fed == [] then 0 else 1)
      && (kept != [] ==> kept[0].endOffset == (open + fed)[|open + fed| - 1].endOffset)
    else out + kept == open + fed && |out| == 1
  }

  lemma StepsShape(s: StackState, act: Act, p: string)
    requires OwnPaths(s)
    ensures var (t, out) := Perform(s, act);
            StepShape(Opt(Open(s, p)), ForPath(Fed([act]), p), ForPath(out, p), Opt(Open(t, p)))
  {
    hide IsContinuation, ForPath, Fed;
    FedFor(act, p);
    OutFor(s, act, p);
    if About(act) != p {
      assert Opt(Open(s, p)) + [] == Opt(Open(s, p));
    }
  }

  lemma RisingStep(open: seq<FileLine>, fed: seq<FileLine>, rest: seq<FileLine>,
                   out: seq<FileLine>, kept: seq<FileLine>, b: int) returns (b1: int)
    requires Rising(open + fed + rest) && Above(open + fed + rest, b) && StepShape(open, fed, out, kept)
    ensures b <= b1 && Rising(kept + rest) && Above(kept + rest, b1)
    ensures out == [] || (|out| == 1 && out[0].endOffset == b1 > b)
  {
    var all := open + fed + rest;
    if out != [] {
      assert all == [out[0]] + (kept + rest) && all[0] in all;
      RisingTail(out[0], kept + rest);
      b1 := out[0].endOffset;
    } else {
      b1 := b;
      if kept == [] {
        assert kept + rest == all;
      } else {
        var last := (open + fed)[|open + fed| - 1];
        assert all == (open + fed)[..|open + fed| - 1] + ([last] + rest) && last in all;
        RisingSuffix((open + fed)[..|open + fed| - 1], [last] + rest);
        RisingTail(last, rest);
        RisingAfter(kept[0], rest);
        assert kept + rest == [kept[0]] + rest;
      }
    }
  }

  lemma RisingSuffix(a: seq<FileLine>, c: seq<FileLine>)
    requires Rising(a + c)
    ensures Rising(c)
  {
    assert forall i | 0 <= i < |c| :: c[i] == (a + c)[|a| + i];
  }

  /** A file's outputs followed by its held-back entry end at increasing offsets when its input does. */
  lemma {:induction false} OutputsRise(s: StackState, acts: seq<Act>, p: string, b: int)
    requires OwnPaths(s)
    requires Rising(Opt(Open(s, p)) + ForPath(Fed(acts), p)) && Above(Opt(Open(s, p)) + ForPath(Fed(acts), p), b)
    ensures var (t, out) := PerformAll(s, acts);
            Rising(ForPath(out, p) + Opt(Open(t, p))) && Above(ForPath(out, p) + Opt(Open(t, p)), b)
    decreases |acts|
  {
    hide Perform, Open, Opt, OwnPaths, Rising, Above, ForPath, StepShape, IsContinuation;
    if acts == [] {
      EmptyRises(Opt(Open(s, p)), p);
    } else {
      var (s1, out) := Perform(s, acts[0]);
      var (t, more) := PerformAll(s1, acts[1..]);
      assert PerformAll(s, acts) == (t, out + more);
      PerformPaths(s, acts[0]);
      StepsShape(s, acts[0], p);
      FedHead(acts, p);
      hide PerformAll, Fed;
      var fed, rest := ForPath(Fed([acts[0]]), p), ForPath(Fed(acts[1..]), p);
      assert Opt(Open(s, p)) + ForPath(Fed(acts), p) == Opt(Open(s, p)) + fed + rest;
      var b1 := RisingStep(Opt(Open(s, p)), fed, rest, ForPath(out, p), Opt(Open(s1, p)), b);
      OutputsRise(s1, acts[1..], p, b1);
      ForPathAppend(out, more, p);
      StepJoins(ForPath(out, p), ForPath(more, p) + Opt(Open(t, p)), b, b1);
      assert ForPath(out, p) + (ForPath(more, p) + Opt(Open(t, p))) == ForPath(out + more, p) + Opt(Open(t, p));
    }
  }

  lemma EmptyRises(open: seq<FileLine>, p: string)
    ensures open + ForPath(Fed([]), p) == ForPath([], p) + open
  {
  }

  lemma StepJoins(out: seq<FileLine>, later: seq<FileLine>, b: int, b1: int)
    requires Rising(later) && Above(later, b1) && b <= b1
    requires out == [] || (|out| == 1 && out[0].endOffset == b1 > b)
    ensures Rising(out + later) && Above(out + later, b)
  {
    if out == [] {
      assert out + later == later;
    } else {
      assert out == [out[0]];
      RisingAfter(out[0], later);
    }
  }

  // ---------------------------------------------------------------- the grouping specification

  /** Number of leading continuation lines. */
  function LeadingRun(ls: seq<FileLine>): (n: nat)
    ensures n <= |ls|
    ensures forall i | 0 <= i < n :: IsContinuation(ls[i].text)
    ensures n < |ls| ==> !IsContinuation(ls[n].text)
  {
    if ls == [] || !IsContinuation(ls[0].text) then 0 else 1 + LeadingRun(ls[1..])
  }

  function Glue(entry: FileLine, more: seq<FileLine>): FileLine
    decreases |more|
  {
    if more == [] then entry else Glue(Extend(entry, more[0]), more[1..])
  }

  /** The reference grouping of one file's lines: a lone orphan continuation, or an entry
      line with its maximal run of continuations. */
  function Entries(ls: seq<FileLine>): seq<FileLine>
    decreases |ls|
  {
    if ls == [] then []
    else if IsContinuation(ls[0].text) then [ls[0]] + Entries(ls[1..])
    else
      var n := LeadingRun(ls[1..]);
      [Glue(ls[0], ls[1..1 + n])] + Entries(ls[1 + n..])
  }

  lemma {:induction false} GlueSnoc(entry: FileLine, more: seq<FileLine>, l: FileLine)
    ensures Glue(entry, more + [l]) == Extend(Glue(entry, more), l)
    decreases |more|
  {
    if more != [] {
      assert (more + [l])[1..] == more[1..] + [l];
      GlueSnoc(Extend(entry, more[0]), more[1..], l);
    }
  }

  predicate Continuations(ls: seq<FileLine>) {
    forall l | l in ls :: IsContinuation(l.text)
  }

  predicate NewStart(ls: seq<FileLine>) {
    ls == [] || !IsContinuation(ls[0].text)
  }

  lemma {:induction false} LeadingRunIs(mid: seq<FileLine>, rest: seq<FileLine>)
    requires Continuations(mid) && NewStart(rest)
    ensures LeadingRun(mid + rest) == |mid|
  {
    if mid == [] {
      assert mid + rest == rest;
    } else {
      assert mid[0] in mid && forall l | l in mid[1..] :: l in mid;
      assert (mid + rest)[1..] == mid[1..] + rest;
      LeadingRunIs(mid[1..], rest);
    }
  }

  /** One block of the grouping: an entry line and all continuations up to the next entry line. */
  lemma EntriesBlock(head: FileLine, mid: seq<FileLine>, rest: seq<FileLine>)
    requires !IsContinuation(head.text) && Continuations(mid) && NewStart(rest)
    ensures Entries([head] + mid + rest) == [Glue(head, mid)] + Entries(rest)
  {
    var all := [head] + mid + rest;
    assert all[1..] == mid + rest;
    LeadingRunIs(mid, rest);
    assert all[1..1 + |mid|] == mid && all[1 + |mid|..] == rest;
  }

  lemma EntriesOrphan(head: FileLine, rest: seq<FileLine>)
    requires IsContinuation(head.text)
    ensures Entries([head] + rest) == [head] + Entries(rest)
  {
    assert ([head] + rest)[1..] == rest;
  }

  /** Some entry line has been seen, so the last entry is still open. */
  predicate HasOpen(ls: seq<FileLine>) {
    exists l :: l in ls && !IsContinuation(l.text)
  }

  function Snoc(es: seq<FileLine>, open: bool, l: FileLine): seq<FileLine>
    requires open ==> es != []
  {
    if open && IsContinuation(l.text) then es[..|es| - 1] + [Extend(es[|es| - 1], l)] else es + [l]
  }

  lemma SnocAfter(e: FileLine, es: seq<FileLine>, open: bool, l: FileLine)
    requires open ==> es != []
    ensures Snoc([e] + es, open, l) == [e] + Snoc(es, open, l)
  {
  }

  /** The grouping grows by the assembler's rule when one more line arrives. */
  lemma {:induction false} EntriesSnoc(ls: seq<FileLine>, l: FileLine)
    ensures HasOpen(ls) ==> Entries(ls) != []
    ensures Entries(ls + [l]) == Snoc(Entries(ls), HasOpen(ls), l)
    decreases |ls|
  {
    if ls == [] {
      EntriesSingle(l);
      assert [] + [l] == [l];
    } else if IsContinuation(ls[0].text) {
      var x, rest := ls[0], ls[1..];
      assert ls == [x] + rest && ls + [l] == [x] + (rest + [l]);
      EntriesOrphan(x, rest);
      EntriesOrphan(x, rest + [l]);
      EntriesSnoc(rest, l);
      assert HasOpen(ls) <==> HasOpen(rest);
      SnocAfter(x, Entries(rest), HasOpen(rest), l);
    } else {
      assert ls[0] in ls;
      EntriesSnocBlock(ls, l);
    }
  }

  lemma {:induction false} EntriesSnocBlock(ls: seq<FileLine>, l: FileLine)
    requires ls != [] && !IsContinuation(ls[0].text)
    ensures Entries(ls) != [] && Entries(ls + [l]) == Snoc(Entries(ls), true, l)
    decreases |ls|
  {
    var n := LeadingRun(ls[1..]);
    var x, mid, rest := ls[0], ls[1..][..n], ls[1..][n..];
    assert ls == [x] + mid + rest;
    assert Continuations(mid);
    if rest != [] {
      assert !IsContinuation(rest[0].text);
      EntriesSnocBlock(rest, l);
      EntriesSnocOn(x, mid, rest, l);
    } else {
      EntriesSnocOpen(x, mid, l);
      assert ls == [x] + mid;
    }
  }

  lemma EntriesSnocOn(x: FileLine, mid: seq<FileLine>, rest: seq<FileLine>, l: FileLine)
    requires !IsContinuation(x.text) && Continuations(mid) && rest != [] && NewStart(rest)
    requires Entries(rest) != [] && Entries(rest + [l]) == Snoc(Entries(rest), true, l)
    ensures Entries([x] + mid + rest) != []
    ensures Entries([x] + mid + rest + [l]) == Snoc(Entries([x] + mid + rest), true, l)
  {
    hide Snoc, Entries, Glue, Continuations, IsContinuation;
    assert NewStart(rest + [l]) by { assert (rest + [l])[0] == rest[0]; }
    EntriesBlock(x, mid, rest);
    EntriesBlock(x, mid, rest + [l]);
    hide NewStart;
    assert [x] + mid + rest + [l] == [x] + mid + (rest + [l]);
    SnocAfter(Glue(x, mid), Entries(rest), true, l);
  }

  /** The case of a single entry whose run of continuations is still going on. */
  lemma EntriesSnocOpen(x: FileLine, mid: seq<FileLine>, l: FileLine)
    requires !IsContinuation(x.text) && Continuations(mid)
    ensures Entries([x] + mid) == [Glue(x, mid)]
    ensures Entries([x] + mid + [l]) == Snoc([Glue(x, mid)], true, l)
  {
    EntriesBlock(x, mid, []);
    assert [x] + mid + [] == [x] + mid;
    if IsContinuation(l.text) {
      EntriesBlock(x, mid + [l], []);
      assert [x] + mid + [l] == [x] + (mid + [l]) + [];
      GlueSnoc(x, mid, l);
    } else {
      EntriesBlock(x, mid, [l]);
      EntriesSingle(l);
    }
  }

  lemma EntriesSingle(l: FileLine)
    ensures Entries([l]) == [l]
  {
    if IsContinuation(l.text) {
      EntriesOrphan(l, []);
      assert [l] + [] == [l];
    } else {
      EntriesBlock(l, [], []);
      assert [l] + [] + [] == [l];
    }
  }

  // ---------------------------------------------------------------- the assembler groups

  lemma {:induction false} PerformSnoc(s: StackState, acts: seq<Act>, act: Act)
    ensures var (t, out) := PerformAll(s, acts);
            PerformAll(s, acts + [act]) == (Perform(t, act).0, out + Perform(t, act).1)
    decreases |acts|
  {
    hide Perform;
    var (s1, first) := Perform(s, (acts + [act])[0]);
    if acts == [] {
      assert ([] + [act])[1..] == [];
      assert PerformAll(s, [] + [act]) == (s1, first + []);
      assert first + [] == first == [] + first;
    } else {
      assert (acts + [act])[1..] == acts[1..] + [act];
      PerformSnoc(s1, acts[1..], act);
      var (t, rest) := PerformAll(s1, acts[1..]);
      assert first + (rest + Perform(t, act).1) == (first + rest) + Perform(t, act).1;
    }
  }

  lemma {:induction false} FedSnoc(acts: seq<Act>, act: Act)
    ensures Fed(acts + [act]) == Fed(acts) + Fed([act])
  {
    if acts == [] {
      assert [] + [act] == [act] && [] + Fed([act]) == Fed([act]);
    } else {
      var rest := acts[1..];
      FedCons(acts);
      FedCons(acts + [act]);
      assert (acts + [act])[1..] == rest + [act] && (acts + [act])[0] == acts[0];
      FedSnoc(rest, act);
      hide Fed;
      assert Fed([acts[0]]) + (Fed(rest) + Fed([act])) == (Fed([acts[0]]) + Fed(rest)) + Fed([act]);
    }
  }

  /** Fed the lines of one file, the assembler has given out and holds back exactly the
      grouping of those lines. */
  lemma {:induction false} AssemblerGroups(acts: seq<Act>, p: string)
    requires forall i | 0 <= i < |acts| :: acts[i].Feed? && acts[i].line.path == p
    ensures var (t, out) := PerformAll(EMPTY, acts);
            && out + Opt(Open(t, p)) == Entries(Fed(acts))
            && (p in t.pending <==> HasOpen(Fed(acts)))
    decreases |acts|
  {
    hide IsContinuation, Entries, HasOpen;
    if acts == [] {
      assert HasOpen([]) == false by { NothingOpen(); }
      assert Entries([]) == [] by { NothingOpen(); }
    } else {
      var n := |acts| - 1;
      var before, act := acts[..n], acts[n];
      assert acts == before + [act];
      AssemblerGroups(before, p);
      PerformSnoc(EMPTY, before, act);
      FedSnoc(before, act);
      assert [act][1..] == [] && Fed([act]) == [act.line];
      EntriesSnoc(Fed(before), act.line);
      OpenSnoc(Fed(before), act.line);
      var (t, out) := PerformAll(EMPTY, before);
      assert Perform(t, act) == Add(t, act.line, act.now);
      assert PerformAll(EMPTY, acts) == (Add(t, act.line, act.now).0, out + Add(t, act.line, act.now).1);
      assert Fed(acts) == Fed(before) + [act.line];
      hide PerformAll, Fed, Perform, Add;
      GivenSnoc(t, out, act.line, act.now, Entries(Fed(before)));
    }
  }

  lemma NothingOpen()
    ensures !HasOpen([]) && Entries([]) == []
  {
  }

  lemma OpenSnoc(ls: seq<FileLine>, l: FileLine)
    ensures HasOpen(ls + [l]) <==> HasOpen(ls) || !IsContinuation(l.text)
  {
    hide IsContinuation;
    if HasOpen(ls) {
      var x :| x in ls && !IsContinuation(x.text);
      assert x in ls + [l];
    }
    if !IsContinuation(l.text) { assert l in ls + [l]; }
  }

  /** One more line by the assembler's rule, on what was given out and held back so far. */
  lemma GivenSnoc(s: StackState, given: seq<FileLine>, line: FileLine, now: int, es: seq<FileLine>)
    requires given + Opt(Open(s, line.path)) == es
    ensures var (t, completed) := Add(s, line, now);
            && (given + completed) + Opt(Open(t, line.path)) == Snoc(es, line.path in s.pending, line)
            && (line.path in t.pending <==> line.path in s.pending || !IsContinuation(line.text))
  {
    hide IsContinuation;
    if line.path in s.pending {
      assert es[..|es| - 1] == given && es[|es| - 1] == s.pending[line.path];
    } else {
      assert given + [] == given;
    }
  }
}
