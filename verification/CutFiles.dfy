/**
 A file that is cut and written anew: runs in which the committed offset stays
 where it was, inside the first line of the new content or at its end, so that a
 restart never gives that line out.
 */
module CutFiles {
  import Names
  import Stacks
  import opened Tailing
  import opened Schema
  import opened Eviction
  import opened BatchStores
  import opened Processing
  import opened Agents
  import opened AgentSafety
  import opened AgentRuns
  import opened AgentRestart
  import AgentCuts

  const OLD := "a\nb\n"
  const A := FileLine("f", "a", 2)
  const B := FileLine("f", "b", 4)

  /** The new line, and its end. */
  predicate NewLine(text: string) {
    text == "x" || text == "xx"
  }

  function X(text: string): FileLine {
    FileLine("f", text, |text| + 1)
  }

  function Before(path: string): Observation {
    Opened(4, true, OLD, true)
  }

  function After(text: string): string -> Observation {
    _ => Opened(|text| + 1, true, text + "\n", true)
  }

  lemma OldLines()
    ensures Lines("f", OLD, 0) == [A, B] && Stop(OLD, 0) == 4
  {
    assert LineEnd(OLD, 0) == 2 && LineEnd(OLD, 2) == 4 && LineEnd(OLD, 4) == 0;
    assert OLD[0..2] == "a\n" && OLD[2..4] == "b\n" && LineText("a\n") == "a" && LineText("b\n") == "b";
    hide LineEnd, LineText;
    assert Lines("f", OLD, 4) == [];
    assert Lines("f", OLD, 2) == [B];
  }

  lemma NewLines(text: string)
    requires NewLine(text)
    ensures Lines("f", text + "\n", 0) == [X(text)] && Stop(text + "\n", 0) == |text| + 1
  {
    hide Lines, Stop;
    if text == "x" {
      ShortLine();
      assert text + "\n" == "x\n";
    } else {
      LongLine();
      assert text + "\n" == "xx\n";
    }
  }

  lemma ShortLine()
    ensures Lines("f", "x\n", 0) == [FileLine("f", "x", 2)] && Stop("x\n", 0) == 2
  {
    assert LineEnd("x\n", 0) == 2 && LineEnd("x\n", 2) == 0 && "x\n"[0..2] == "x\n" && LineText("x\n") == "x";
    hide LineEnd, LineText;
    assert Lines("f", "x\n", 2) == [];
  }

  lemma LongLine()
    ensures Lines("f", "xx\n", 0) == [FileLine("f", "xx", 3)] && Stop("xx\n", 0) == 3
  {
    assert LineEnd("xx\n", 0) == 3 && LineEnd("xx\n", 3) == 0 && "xx\n"[0..3] == "xx\n" && LineText("xx\n") == "xx";
    hide LineEnd, LineText;
    assert Lines("f", "xx\n", 3) == [];
  }

  lemma EntryLines()
    ensures !Stacks.IsContinuation(A.text) && !Stacks.IsContinuation(B.text)
    ensures !Stacks.IsContinuation("x") && !Stacks.IsContinuation("xx")
  {
  }

  lemma ReadBefore()
    ensures ReadNew(FRESH.tailer, ["f"], Before) == Reading(TailerState(map[], map["f" := 4]), [A, B], [], false)
  {
    OldLines();
    hide Lines, Stop;
    var r0 := Reading(FRESH.tailer, [], [], false);
    assert [] + [A, B] == [A, B] && ["f"][1..] == [];
    assert ReadAll(r0, ["f"], Before) == ReadAll(ReadOne(r0, "f", Before("f")), [], Before);
  }

  lemma ReadAfter(t: TailerState, text: string)
    requires NewLine(text) && t.readOffsets == map["f" := 4]
    ensures ReadNew(t, ["f"], After(text)) == Reading(t.(readOffsets := map["f" := |text| + 1]), [X(text)], ["f"], false)
  {
    NewLines(text);
    hide Lines, Stop, NewLine;
    var r0 := Reading(t, [], [], false);
    assert |text| + 1 < 4 by { assert text == "x" || text == "xx"; }
    assert [] + [X(text)] == [X(text)] && [] + ["f"] == ["f"] && ["f"][1..] == [];
    assert map["f" := 4]["f" := 0]["f" := |text| + 1] == map["f" := |text| + 1];
    assert ReadAll(r0, ["f"], After(text)) == ReadAll(ReadOne(r0, "f", After(text)("f")), [], After(text));
  }

  /** The first poll: "a" is committed at 2, "b" is held back, four bytes have been read. */
  predicate Tailed(st: AgentState, now: int) {
    && st.tailer == TailerState(map["f" := 2], map["f" := 4])
    && st.stacks == Stacks.StackState(map["f" := B], map["f" := now])
    && st.batch == [] && st.batchOffsets == map[] && st.pendingBatch == "" && st.written == 0
    && st.writes == 1 && st.saves == 1
    && (forall x | x in st.log :: x.line == A)
  }

  /** With "a" held back and "b" just read, "a" is processed. */
  lemma FirstEntry(env: Env, st: AgentState, now: int)
    requires env.batchSize == 1 && forall line, t, k :: Decide(env.settings, line, t, k).0.Keep?
    requires env.write(0).WriteDone? && env.saveOk(0)
    requires st == Holding(Holding(FRESH.(tailer := TailerState(map[], map["f" := 4])), A, now), B, now)
    ensures Tailed(ProcessLine(env, st, A, now).st, now)
  {
    hide Decide, ProcessLine;
    assert st.stacks == Stacks.StackState(map["f" := B], map["f" := now]);
    assert Unsaved(st) == [] && map[]["f" := 2] == map["f" := 2];
    WrittenAndCommitted(env, st, A, now);
    assert Candidate(st.tailer, map["f" := 2]) == map["f" := 2];
  }

  lemma FirstFeed(env: Env, now: int)
    requires env.batchSize == 1 && forall line, t, k :: Decide(env.settings, line, t, k).0.Keep?
    requires env.write(0).WriteDone? && env.saveOk(0)
    ensures Tailed(FeedLines(env, Progress(FRESH.(tailer := TailerState(map[], map["f" := 4])), [], false), [A, B], now).st, now)
  {
    hide Decide, ProcessLine, AddLine, FeedLines, Tailed, Stacks.IsContinuation;
    EntryLines();
    var g0 := Progress(FRESH.(tailer := TailerState(map[], map["f" := 4])), [], false);
    FeedTwo(env, g0, A, B, now);
    HeldBack(env, g0, A, now);
    var g1 := g0.(st := Holding(g0.st, A, now));
    HeldBack(env, g1, B, now);
    FirstEntry(env, Holding(g1.st, B, now), now);
  }

  lemma FirstPoll(env: Env, now: int)
    requires env.files == ["f"] && env.batchSize == 1 && forall line, t, k :: Decide(env.settings, line, t, k).0.Keep?
    requires env.write(0).WriteDone? && env.saveOk(0)
    ensures Tailed(Poll(env, FRESH, Before, now).st, now)
  {
    hide Decide, ReadNew, AddLine, FeedLines;
    ReadBefore();
    FirstFeed(env, now);
    var g0 := Progress(FRESH.(tailer := TailerState(map[], map["f" := 4])), [], false);
    var g := FeedLines(env, g0, [A, B], now);
    assert Resets(env, g0, [], now) == g0;
    StillHeld(env, g, now);
  }

  /** At the end of a poll the entry just held back is not idle, and the empty batch leaves no
      safe offset to commit. */
  lemma StillHeld(env: Env, g: Progress, now: int)
    requires env.files == ["f"] && g.st.stacks.updatedAt == map["f" := now]
    requires g.st.batch == [] && g.st.batchOffsets == map[]
    ensures Finish(env, Idles(env, g, env.files, now)) == g
  {
    assert ["f"][1..] == [];
    assert IdleOne(env, g, "f", now) == g;
    assert Idles(env, g, ["f"], now) == Idles(env, g, [], now) == g;
  }

  lemma FeedTwo(env: Env, g: Progress, a: FileLine, b: FileLine, now: int)
    ensures FeedLines(env, g, [a, b], now) == AddLine(env, AddLine(env, g, a, now), b, now)
  {
    hide AddLine;
    assert [a, b][1..] == [b] && [b][1..] == [];
    var g1 := AddLine(env, g, a, now);
    assert FeedLines(env, g1, [b], now) == FeedLines(env, AddLine(env, g1, b, now), [], now);
  }

  /** The second poll: the file has been cut and written anew, "b" is processed at offset 0 and
      committed, the committed offset stays at 2, and the new line is held back. */
  predicate Overtaken(st0: AgentState, st: AgentState, text: string, now: int) {
    && st.tailer == TailerState(map["f" := 2], map["f" := |text| + 1])
    && st.stacks == Stacks.StackState(map["f" := X(text)], map["f" := now])
    && Stayed(st0, st, text)
  }

  /** Since `st0` the one commit has left the durable offset where it was. */
  predicate Stayed(st0: AgentState, st: AgentState, text: string) {
    && st.trail != []
    && var d := st.trail[|st.trail| - 1];
    && d.offsets == map["f" := 2] && d.log == st.log && |st0.log| <= |st.log|
    && d.commits == st0.commits + [OffsetsCommit(map["f" := |text| + 1], map["f" := 0])]
    && (forall x | x in st.log :: x.line.text == "a" || x.line.text == "b")
  }

  lemma SecondReset(env: Env, st: AgentState, text: string, first: int, now: int)
    requires env.batchSize == 1 && forall line, t, k :: Decide(env.settings, line, t, k).0.Keep?
    requires NewLine(text) && Tailed(st, first) && env.write(1).WriteDone? && env.saveOk(1)
    ensures var s := ResetOne(env, Progress(st.(tailer := TailerState(map["f" := 2], map["f" := |text| + 1])), [], false), "f", now).st;
            && s.tailer == TailerState(map["f" := 2], map["f" := |text| + 1]) && s.stacks == Stacks.EMPTY
            && s.batch == [] && s.batchOffsets == map[]
            && Stayed(st, s, text)
  {
    hide Decide, ProcessLine;
    var st1 := st.(tailer := TailerState(map["f" := 2], map["f" := |text| + 1]), batchOffsets := map["f" := 0], stacks := Stacks.EMPTY);
    assert map["f" := B] - {"f"} == map[] && map["f" := first] - {"f"} == map[];
    assert map[]["f" := 0] == map["f" := 0] && map["f" := 0]["f" := 0] == map["f" := 0];
    assert Unsaved(st1) == [];
    var line := B.(endOffset := 0);
    WrittenAndCommitted(env, st1, line, now);
    assert Candidate(st1.tailer, map["f" := 0]) == map["f" := 2];
  }

  lemma FeedOne(env: Env, g: Progress, line: FileLine, now: int)
    ensures FeedLines(env, g, [line], now) == AddLine(env, g, line, now)
  {
    hide AddLine;
    assert [line][1..] == [] && FeedLines(env, g, [line], now) == FeedLines(env, AddLine(env, g, line, now), [], now);
  }

  lemma SecondPoll(env: Env, st: AgentState, text: string, first: int, now: int)
    requires env.files == ["f"] && env.batchSize == 1 && forall line, t, k :: Decide(env.settings, line, t, k).0.Keep?
    requires NewLine(text) && Tailed(st, first) && env.write(1).WriteDone? && env.saveOk(1)
    ensures Overtaken(st, Poll(env, st, After(text), now).st, text, now)
  {
    hide Decide, ReadNew, ResetOne, AddLine, FeedLines, Idles, Stacks.IsContinuation;
    ReadAfter(st.tailer, text);
    SecondReset(env, st, text, first, now);
    EntryLines();
    var g0 := Progress(st.(tailer := TailerState(map["f" := 2], map["f" := |text| + 1])), [], false);
    var g1 := ResetOne(env, g0, "f", now);
    assert ["f"][1..] == [] && Resets(env, g0, ["f"], now) == Resets(env, g1, [], now) == g1;
    HeldBack(env, g1, X(text), now);
    var g2 := g1.(st := Holding(g1.st, X(text), now));
    assert map[]["f" := X(text)] == map["f" := X(text)] && map[]["f" := now] == map["f" := now];
    FeedOne(env, g1, X(text), now);
    StillHeld(env, g2, now);
  }

  /** What a tailer restarted at 2 reads of any content that begins with the new line. */
  lemma ReadsOn(o: Observation, offsets: Offsets, text: string)
    requires NewLine(text) && offsets == map["f" := 2] && o.Opened? && o.seekOk && o.size >= 2 && text + "\n" <= o.data
    ensures LineEnd(o.data, 0) == |text| + 1
    ensures forall l | l in ReadNew(TailerState(offsets, offsets), ["f"], _ => o).lines :: l.endOffset == |text| + 1 ==> l.text == ""
  {
    var r0 := Reading(TailerState(offsets, offsets), [], [], false);
    NextEnds(o.data, text);
    hide Lines, LineEnd, Stop, NewLine;
    assert ["f"][1..] == [] && [] + Lines("f", o.data, 2) == Lines("f", o.data, 2);
    assert ReadAll(r0, ["f"], _ => o) == ReadAll(ReadOne(r0, "f", o), [], _ => o);
  }

  /** The new line ends at `e`; what begins at 2 is its empty rest, or lies behind it. */
  lemma NextEnds(v: string, text: string)
    requires NewLine(text) && text + "\n" <= v
    ensures LineEnd(v, 0) == |text| + 1
    ensures forall l | l in Lines("f", v, 2) :: l.endOffset == |text| + 1 ==> l.text == ""
  {
    var e := |text| + 1;
    assert v[e - 1] == '\n' && v[0] == 'x' && (text == "xx" ==> v[1] == 'x');
    assert LineEnd(v, 1) == e && LineEnd(v, 0) == e;
    if text == "xx" {
      assert LineEnd(v, 2) == 3 && v[2..3] == "\n" && LineText("\n") == "";
      LinesShape("f", v, 3);
      assert Lines("f", v, 2) == [FileLine("f", "", 3)] + Lines("f", v, 3);
    } else {
      LinesShape("f", v, 2);
    }
  }

  /** The flush after the first poll finds nothing to do. */
  lemma FirstTwo(env: Env, text: string, first: int, now: int)
    requires env.files == ["f"] && env.batchSize == 1 && forall line, t, k :: Decide(env.settings, line, t, k).0.Keep?
    requires env.write(0).WriteDone? && env.saveOk(0)
    ensures var st := Poll(env, FRESH, Before, first).st;
            && Run(env, FRESH, [Polled(first, Before), Flushed]) == st
            && Run(env, FRESH, [Polled(first, Before), Flushed, Polled(now, After(text))]) == Poll(env, st, After(text), now).st
  {
    hide Decide, Poll, ReadNew, After;
    FirstPoll(env, first);
    var evs := [Polled(first, Before), Flushed, Polled(now, After(text))];
    assert evs[..2] == [Polled(first, Before), Flushed] && evs[..2][..1] == [Polled(first, Before)] && evs[..1][..0] == [];
    var st := Poll(env, FRESH, Before, first).st;
    assert Run(env, FRESH, [Polled(first, Before)]) == st;
    assert FlushBatch(env, st).st == st;
    assert Run(env, FRESH, evs[..2]) == st by { hide FlushBatch; }
  }

  /** For files that shrink there is loss behind the offset. The file of two lines is read to its
      end, the first line is committed at 2 and the second held back; the file is then cut and
      one line "x" or "xx" written; the next poll resets the file and commits the held-back
      entry, but the committed offset stays at 2, at the end of the line "x" or inside the line
      "xx". After a crash the restart begins there: the new line is in no entry, and the restarted
      tailer never gives it out, although in the first case it begins on a line boundary. */
  lemma CutFileLosesALine(env: Env, text: string, first: int, now: int, stuck: set<string>, nanos: nat, o: Observation)
    requires env.files == ["f"] && env.batchSize == 1
    requires forall line, t, k :: Decide(env.settings, line, t, k).0.Keep?
    requires env.write(0).WriteDone? && env.write(1).WriteDone? && env.saveOk(0) && env.saveOk(1)
    requires NewLine(text) && o.Opened? && o.seekOk && o.size >= 2 && text + "\n" <= o.data
    ensures var st := Run(env, FRESH, [Polled(first, Before), Flushed, Polled(now, After(text))]);
            && st.trail != []
            && var s := Next(env, st, Crashed(|st.trail| - 1, stuck, nanos));
            && s.tailer == TailerState(map["f" := 2], map["f" := 2]) && LineBreak(o.data, |text| + 1)
            && (text == "x" <==> Boundary(o.data, 2)) && MissesLine(o.data, 0, 2)
            && (forall x | x in s.log :: x.line.text != text) && s.stacks == Stacks.EMPTY
            && forall l | l in ReadNew(s.tailer, env.files, _ => o).lines :: l.endOffset == |text| + 1 ==> l.text != text
  {
    hide Decide, Poll, Run, ReadNew, RecoverClaims, After, LineEnd, Tailed;
    var st1 := Poll(env, FRESH, Before, first).st;
    FirstTwo(env, text, first, now);
    FirstPoll(env, first);
    SecondPoll(env, st1, text, first, now);
    ReadsOn(o, map["f" := 2], text);
    assert o.data[0] == 'x' && o.data[|text|] == '\n' && (text == "xx" ==> o.data[1] == 'x');
  }

  /** This is what the condition on shrinking files describes: in these runs the one commit since
      the file was started over left the old offset alone, and it lies above the safe offset. */
  lemma LeftAboveIndeed(env: Env, text: string, first: int, now: int)
    requires env.files == ["f"] && env.batchSize == 1
    requires forall line, t, k :: Decide(env.settings, line, t, k).0.Keep?
    requires env.write(0).WriteDone? && env.write(1).WriteDone? && env.saveOk(0) && env.saveOk(1)
    requires NewLine(text)
    ensures var st := Poll(env, FRESH, Before, first).st;
            var s := Run(env, FRESH, [Polled(first, Before), Flushed, Polled(now, After(text))]);
            && s.trail != []
            && var o, d := AgentCuts.OriginAt(st, "f", text + "\n"), s.trail[|s.trail| - 1];
            && AgentCuts.CutRun(env, [Polled(first, Before), Flushed], now, After(text), [], o, d) && AgentCuts.LeftAbove(o, d)
  {
    hide Decide, Poll, Run, ReadNew, SaveAll, AgentCuts.ShowsCut, AgentCuts.AtReset, AgentCuts.LeftAbove;
    var evs := [Polled(first, Before), Flushed, Polled(now, After(text))];
    var st := Poll(env, FRESH, Before, first).st;
    FirstTwo(env, text, first, now);
    FirstPoll(env, first);
    SecondPoll(env, st, text, first, now);
    AgentCuts.CommitsOfRun(env, evs[..2]);
    assert evs[..2] == [Polled(first, Before), Flushed] && evs == evs[..2] + [Polled(now, After(text))] + [];
    CutShown(st.tailer, text);
    var s := Run(env, FRESH, evs);
    assert AgentCuts.GrowsSince(env, AgentCuts.OriginAt(st, "f", text + "\n"), Poll(env, st, After(text), now).st, []);
    ResetFirst(env, st, text, now);
    OneCommit(AgentCuts.OriginAt(st, "f", text + "\n"), s.trail[|s.trail| - 1], text);
  }

  lemma CutShown(t: TailerState, text: string)
    requires NewLine(text) && t.readOffsets == map["f" := 4]
    ensures AgentCuts.ShowsCut(t, "f", After(text)("f"), text + "\n")
  {
  }

  /** Nothing happens in the poll before the file's turn to start over. */
  lemma ResetFirst(env: Env, st: AgentState, text: string, now: int)
    requires NewLine(text) && env.files == ["f"] && st.tailer.readOffsets == map["f" := 4]
    ensures AgentCuts.OriginAt(AgentCuts.AtReset(env, st, After(text), now, "f"), "f", text + "\n")
         == AgentCuts.OriginAt(st, "f", text + "\n")
  {
    hide ReadNew;
    ReadAfter(st.tailer, text);
    assert AgentCuts.Before(["f"], "f") == [];
  }

  lemma OneCommit(o: AgentCuts.Origin, d: Durable, text: string)
    requires NewLine(text) && o.path == "f" && AgentCuts.OldOffset(o) == 2 && AgentCuts.IsSince(o, d)
    requires d.commits == o.commits + [OffsetsCommit(map["f" := |text| + 1], map["f" := 0])]
    ensures AgentCuts.LeftAbove(o, d)
  {
    hide AgentCuts.OldOffset;
    var save := OffsetsCommit(map["f" := |text| + 1], map["f" := 0]);
    assert AgentCuts.CommitsSince(o, d.commits) == [save] && Allowed(save);
    assert [save][..0] == [];
  }
}
