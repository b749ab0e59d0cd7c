/**
 First in, first out. With strictly increasing clocks and renames that succeed,
 batches are claimed in the order of their names and delivered in strictly
 increasing order, across retries, evictions and restarts.
 */
module Fifo {
  import opened Names
  import opened Text
  import opened Schema
  import opened Eviction
  import opened BatchStores
  import Ingest
  import opened Senders
  import opened Delivery

  function NewName(io: WriteIO): string
    requires io.WriteDone?
  {
    NewBatchName(io.now, io.random)
  }

  /** Every rename that the step needs succeeds. */
  predicate Smooth(step: Step) {
    match step
    case Claims(stuck) => stuck == {}
    case Receives(_, o) => o.renameOk
    case GivesUp(renameOk, _) => renameOk
    case Restarts(stuck, _) => stuck == {}
    case _ => true
  }

  predicate Published(step: Step) {
    step.Writes? && step.io.WriteDone?
  }

  /** The clock is read in increasing order by the writes. */
  ghost predicate ClocksRise(steps: seq<Step>) {
    && (forall i | 0 <= i < |steps| && Published(steps[i]) :: InRange(steps[i].io.now))
    && (forall i, j | 0 <= i < j < |steps| && Published(steps[i]) && Published(steps[j]) ::
          Earlier(Fields(steps[i].io.now), Fields(steps[j].io.now)))
  }

  ghost predicate SmoothRun(steps: seq<Step>) {
    ClocksRise(steps) && forall i | 0 <= i < |steps| :: Smooth(steps[i])
  }

  /** Every published name belongs to a write of the run. */
  ghost predicate FromWrites(n: Net, steps: seq<Step>) {
    forall x | x in Book(n.disk.published) :: exists i :: 0 <= i < |steps| && Published(steps[i]) && NewName(steps[i].io) == x
  }

  // ---------------------------------------------------------------- the invariant

  predicate AtLeast(a: string, b: string) {
    a == b || Less(b, a)
  }

  function Latest(names: seq<string>): string
    requires names != []
  {
    names[|names| - 1]
  }

  predicate NonDecreasing(names: seq<string>) {
    forall i, j | 0 <= i < j < |names| :: AtLeast(names[j], names[i])
  }

  /** What is in the directory stands at or behind the latest claim, and behind the latest
      delivery. */
  predicate InLine(files: set<string>, mode: Mode, claims: seq<string>, deliveries: seq<string>) {
    && (mode != Idle ==> claims != [] && mode.claimed == ClaimOf(Latest(claims)))
    && (forall f | f in files :: EndsWith(f, SUFFIX) || (mode != Idle && f == mode.claimed))
    && (claims != [] ==> forall f | f in files && EndsWith(f, SUFFIX) :: AtLeast(f, Latest(claims)))
    && (deliveries != [] ==>
          && claims != []
          && (forall f | f in files && EndsWith(f, SUFFIX) :: Less(Latest(deliveries), f))
          && (mode != Idle && mode.claimed in files ==> Less(Latest(deliveries), Latest(claims))))
  }

  predicate Known(d: Disk, names: seq<string>) {
    names != [] ==> Latest(names) in Book(d.published) && EndsWith(Latest(names), SUFFIX)
  }

  ghost predicate FifoOk(n: Net) {
    && Accounted(n.disk) && NonDecreasing(n.claims) && Sorted(n.deliveries)
    && Known(n.disk, n.claims) && Known(n.disk, n.deliveries)
    && InLine(n.disk.directory.Keys, n.mode, n.claims, n.deliveries)
  }

  /** The claimed file goes back under its own name, or is gone. */
  lemma LetGo(files: set<string>, after: set<string>, mode: Mode, claims: seq<string>, deliveries: seq<string>)
    requires InLine(files, mode, claims, deliveries) && mode != Idle && EndsWith(Latest(claims), SUFFIX)
    requires forall f | f in after :: (f in files && f != mode.claimed) || (f == Latest(claims) && mode.claimed in files)
    ensures InLine(after, Idle, claims, deliveries)
  {
    hide EndsWith, Less;
  }

  lemma Fewer(files: set<string>, after: set<string>, mode: Mode, claims: seq<string>, deliveries: seq<string>)
    requires InLine(files, mode, claims, deliveries) && after <= files
    ensures InLine(after, mode, claims, deliveries)
  {
    hide EndsWith, Less;
  }

  // ---------------------------------------------------------------- the steps

  lemma WriteName(n: Net, steps: seq<Step>, step: Step)
    requires FromWrites(n, steps) && ClocksRise(steps + [step]) && Published(step)
    ensures forall x | x in Book(n.disk.published) :: Less(x, NewName(step.io))
    ensures NewName(step.io) !in Book(n.disk.published)
  {
    hide NewBatchName, Less, InRange, Earlier, Fields, Book;
    var all := steps + [step];
    assert all[|steps|] == step;
    forall x | x in Book(n.disk.published) ensures Less(x, NewName(step.io)) {
      var i :| 0 <= i < |steps| && Published(steps[i]) && NewName(steps[i].io) == x;
      assert all[i] == steps[i];
      NamesInTimeOrder(steps[i].io.now, step.io.now, steps[i].io.random, step.io.random);
    }
    LessTotal(NewName(step.io), NewName(step.io));
  }

  lemma PendingKnown(d: Disk, f: string)
    requires Accounted(d) && f in d.directory && EndsWith(f, SUFFIX)
    ensures f in Book(d.published)
  {
    PlaceOf(d, f);
  }

  /** A new batch goes to the end of the line. */
  lemma WriteFifo(s: Setup, n: Net, steps: seq<Step>, step: Step)
    requires FifoOk(n) && FromWrites(n, steps) && ClocksRise(steps + [step]) && step.Writes?
    ensures FifoOk(Go(s, n, step))
  {
    hide NewBatchName, Accounted, VictimSet, Book, Less, EndsWith, FromWrites, ClocksRise, Sorted, NonDecreasing, InLine;
    if step.io.WriteDone? {
      var name, b := NewName(step.io), Batch(step.records, step.io.size);
      WriteName(n, steps, step);
      NewNameEnds(step.io);
      OpAccounted(n.disk, s.maxBytes, Write(step.records, step.io));
      BookSnoc(n.disk.published, Publication(name, b));
      var m := Go(s, n, step);
      assert m.disk.published == n.disk.published + [Publication(name, b)];
      forall f | f in n.disk.directory && EndsWith(f, SUFFIX) ensures f in Book(n.disk.published) { PendingKnown(n.disk, f); }
      Longer(n, name);
      Fewer(n.disk.directory.Keys + {name}, m.disk.directory.Keys, n.mode, n.claims, n.deliveries);
    }
  }

  lemma Longer(n: Net, name: string)
    requires FifoOk(n) && EndsWith(name, SUFFIX) && name !in n.disk.directory
    requires forall x | x in Book(n.disk.published) :: Less(x, name)
    ensures InLine(n.disk.directory.Keys + {name}, n.mode, n.claims, n.deliveries)
  {
    hide Accounted, Book, Less, EndsWith;
    if n.mode != Idle && n.mode.claimed == name {
      ClaimName(Latest(n.claims));
      assert false;
    }
  }

  /** When every rename succeeds the claim goes to the first pending name. */
  lemma OldestFirst(d: Disk, stuck: set<string>)
    requires stuck == {}
    ensures var x := FirstClaimable(Listing(d.directory), stuck);
            x != "" ==> x in d.directory && EndsWith(x, SUFFIX) && forall f | f in d.directory && EndsWith(f, SUFFIX) :: AtLeast(f, x)
  {
    hide Less, EndsWith;
    var names := Listing(d.directory);
    SortedNamesMeaning(Pending(d.directory));
    FirstClaimableListed(d, stuck);
    if names != [] {
      assert FirstClaimable(names, stuck) == names[0];
      forall f | f in d.directory && EndsWith(f, SUFFIX) ensures AtLeast(f, names[0]) {
        assert f in names;
      }
    }
  }

  /** The next claim is the first in line. */
  lemma ClaimFifo(s: Setup, n: Net, stuck: set<string>)
    requires FifoOk(n) && stuck == {}
    ensures FifoOk(Go(s, n, Claims(stuck)))
  {
    hide Accounted, Book, Less, EndsWith, Listing, FirstClaimable, WithoutSuffix, Sorted, NonDecreasing, InLine;
    var (d, c) := ClaimOldest(n.disk, stuck);
    if n.mode == Idle && c != "" {
      var x := FirstClaimable(Listing(n.disk.directory), stuck);
      OldestFirst(n.disk, stuck);
      ClaimName(x);
      PendingKnown(n.disk, x);
      OpAccounted(n.disk, s.maxBytes, Claim(stuck));
      ClaimInLine(n.disk.directory, n.claims, n.deliveries, x);
    }
  }

  lemma NonDecreasingSnoc(names: seq<string>, x: string)
    requires NonDecreasing(names) && (names != [] ==> AtLeast(x, Latest(names)))
    ensures NonDecreasing(names + [x])
  {
    var all := names + [x];
    forall i, j | 0 <= i < j < |all| ensures AtLeast(all[j], all[i]) {
      if j == |names| {
        var l := Latest(names);
        assert i < |names| - 1 ==> AtLeast(l, names[i]);
        if x != l && l != names[i] { LessTrans(names[i], l, x); }
      }
    }
  }

  /** The first in line is claimed. */
  lemma FirstClaimed(files: set<string>, after: set<string>, x: string, c: string, claims: seq<string>, deliveries: seq<string>)
    requires InLine(files, Idle, claims, deliveries) && x in files && EndsWith(x, SUFFIX) && c == ClaimOf(x)
    requires !EndsWith(c, SUFFIX) && after == files - {x} + {c}
    requires forall f | f in files && EndsWith(f, SUFFIX) :: AtLeast(f, x)
    ensures InLine(after, Holding(c), claims + [x], deliveries)
  {
    hide EndsWith, ClaimOf, Less;
  }

  lemma ClaimInLine(dir: Directory, claims: seq<string>, deliveries: seq<string>, x: string)
    requires InLine(dir.Keys, Idle, claims, deliveries) && NonDecreasing(claims)
    requires x in dir && EndsWith(x, SUFFIX) && forall f | f in dir && EndsWith(f, SUFFIX) :: AtLeast(f, x)
    ensures InLine(Rename(dir, x, ClaimOf(x)).Keys, Holding(ClaimOf(x)), claims + [x], deliveries)
    ensures NonDecreasing(claims + [x])
  {
    hide EndsWith, NonDecreasing, AtLeast, InLine, ClaimOf;
    ClaimName(x);
    LatestLeast(dir.Keys, claims, deliveries, x);
    NonDecreasingSnoc(claims, x);
    assert Rename(dir, x, ClaimOf(x)).Keys == dir.Keys - {x} + {ClaimOf(x)};
    FirstClaimed(dir.Keys, Rename(dir, x, ClaimOf(x)).Keys, x, ClaimOf(x), claims, deliveries);
  }

  lemma LatestLeast(files: set<string>, claims: seq<string>, deliveries: seq<string>, x: string)
    requires InLine(files, Idle, claims, deliveries) && x in files && EndsWith(x, SUFFIX)
    ensures claims != [] ==> AtLeast(x, Latest(claims))
  {
    hide EndsWith, AtLeast, Less;
  }

  /** What the claimed name is. */
  lemma ClaimedIs(n: Net)
    requires FifoOk(n) && n.mode != Idle
    ensures n.claims != [] && EndsWith(n.mode.claimed, CLAIMED) && WithoutSuffix(n.mode.claimed, CLAIM) == Latest(n.claims)
    ensures EndsWith(Latest(n.claims), SUFFIX) && Latest(n.claims) != n.mode.claimed
  {
    hide Accounted, Book, Less, Sorted;
    ClaimName(Latest(n.claims));
  }

  lemma ReturnFiles(d: Disk, maxBytes: int, c: string, stuck: set<string>)
    requires EndsWith(c, CLAIMED) && WithoutSuffix(c, CLAIM) != c
    ensures var e := Return(d, maxBytes, c, true, stuck).0;
            && e.published == d.published
            && forall f | f in e.directory :: (f in d.directory && f != c) || (f == WithoutSuffix(c, CLAIM) && c in d.directory)
  {
    hide EndsWith, WithoutSuffix, VictimSet;
  }

  lemma ReturnFifo(s: Setup, n: Net, stuck: set<string>)
    requires FifoOk(n) && n.mode != Idle
    ensures FifoOk(n.(disk := Return(n.disk, s.maxBytes, n.mode.claimed, true, stuck).0, mode := Idle))
  {
    hide Accounted, Book, Less, EndsWith, WithoutSuffix, Return, Sorted, InLine, NonDecreasing;
    ClaimedIs(n);
    var c, d := n.mode.claimed, n.disk;
    OpAccounted(d, s.maxBytes, Unclaim(c, true, stuck));
    ReturnFiles(d, s.maxBytes, c, stuck);
    LetGo(d.directory.Keys, Return(d, s.maxBytes, c, true, stuck).0.directory.Keys, n.mode, n.claims, n.deliveries);
  }

  lemma GoneFifo(s: Setup, n: Net, e: Disk, deliveries: seq<string>)
    requires FifoOk(n) && n.mode != Idle && Accounted(e) && e.published == n.disk.published
    requires e.directory == n.disk.directory - {n.mode.claimed}
    requires n.claims != []
    requires deliveries == n.deliveries
          || (n.mode.claimed in n.disk.directory && deliveries == n.deliveries + [Latest(n.claims)])
    ensures FifoOk(n.(disk := e, mode := Idle, deliveries := deliveries))
  {
    hide Accounted, Book, Less, EndsWith, WithoutSuffix, Sorted, InLine, NonDecreasing;
    ClaimedIs(n);
    var files := n.disk.directory.Keys;
    assert e.directory.Keys == files - {n.mode.claimed};
    if deliveries != n.deliveries {
      DeliverInLine(n);
    } else {
      LetGo(files, files - {n.mode.claimed}, n.mode, n.claims, n.deliveries);
    }
  }

  lemma DeleteFifo(s: Setup, n: Net, removeOk: bool, deliveries: seq<string>)
    requires FifoOk(n) && n.mode != Idle && DeleteClaim(n.disk, n.mode.claimed, removeOk).1
    requires deliveries == if n.mode.claimed in n.disk.directory then n.deliveries + [Latest(n.claims)] else n.deliveries
    ensures FifoOk(n.(disk := DeleteClaim(n.disk, n.mode.claimed, removeOk).0, mode := Idle, deliveries := deliveries))
  {
    hide FifoOk, Accounted, EndsWith, WithoutSuffix;
    ClaimedIs(n);
    assert Accounted(n.disk) by { FifoAccounted(n); }
    OpAccounted(n.disk, s.maxBytes, Delete(n.mode.claimed, removeOk));
    assert n.disk.directory - {n.mode.claimed} == n.disk.directory || n.mode.claimed in n.disk.directory;
    GoneFifo(s, n, DeleteClaim(n.disk, n.mode.claimed, removeOk).0, deliveries);
  }

  lemma MoveFifo(s: Setup, n: Net, moveOk: bool)
    requires FifoOk(n) && n.mode != Idle && MoveToFailed(n.disk, n.mode.claimed, moveOk).1
    ensures FifoOk(n.(disk := MoveToFailed(n.disk, n.mode.claimed, moveOk).0, mode := Idle))
  {
    hide FifoOk, Accounted, EndsWith, WithoutSuffix;
    ClaimedIs(n);
    assert Accounted(n.disk) by { FifoAccounted(n); }
    OpAccounted(n.disk, s.maxBytes, Quarantine(n.mode.claimed, moveOk));
    GoneFifo(s, n, MoveToFailed(n.disk, n.mode.claimed, moveOk).0, n.deliveries);
  }

  lemma FifoAccounted(n: Net)
    requires FifoOk(n)
    ensures Accounted(n.disk)
  {
  }

  lemma ReceiveFifo(s: Setup, n: Net, now: int, o: Outcome)
    requires FifoOk(n) && n.mode.Waiting? && n.mode.call < |n.calls| && n.calls[n.mode.call].phase.Done? && o.renameOk
    ensures FifoOk(Receive(s, n, now, o))
  {
    hide FifoOk, DeleteClaim, MoveToFailed, Return, Classify, WithoutSuffix, EndsWith;
    ClaimedIs(n);
    var c := n.mode.claimed;
    var disposition := Classify(true, n.calls[n.mode.call].phase.answer, now);
    if disposition == Succeeded && DeleteClaim(n.disk, c, o.removeOk).1 {
      DeleteFifo(s, n, o.removeOk, if c in n.disk.directory then n.deliveries + [Latest(n.claims)] else n.deliveries);
    } else if disposition == Failed && MoveToFailed(n.disk, c, o.moveOk).1 {
      MoveFifo(s, n, o.moveOk);
    } else {
      ReturnFifo(s, n, o.stuck);
    }
  }

  lemma SortedSnoc(names: seq<string>, x: string)
    requires Sorted(names) && (names != [] ==> Less(Latest(names), x))
    ensures Sorted(names + [x])
  {
    var all := names + [x];
    forall i, j | 0 <= i < j < |all| ensures Less(all[i], all[j]) {
      if j == |names| && i < |names| - 1 { LessTrans(names[i], Latest(names), x); }
    }
  }

  lemma DeliveredInLine(files: set<string>, mode: Mode, claims: seq<string>, deliveries: seq<string>)
    requires InLine(files, mode, claims, deliveries) && mode != Idle && mode.claimed in files && Latest(claims) !in files
    ensures InLine(files - {mode.claimed}, Idle, claims, deliveries + [Latest(claims)])
  {
    hide EndsWith, Less, ClaimOf;
  }

  /** The delivered batch becomes the latest delivery. */
  lemma DeliverInLine(n: Net)
    requires FifoOk(n) && n.mode != Idle && n.mode.claimed in n.disk.directory
    ensures Sorted(n.deliveries + [Latest(n.claims)])
    ensures InLine(n.disk.directory.Keys - {n.mode.claimed}, Idle, n.claims, n.deliveries + [Latest(n.claims)])
  {
    ClaimedIs(n);
    PlaceOf(n.disk, Latest(n.claims));
    hide Accounted, Book, EndsWith, ClaimOf, WithoutSuffix, Less, Sorted, Known, NonDecreasing;
    assert n.deliveries != [] ==> Less(Latest(n.deliveries), Latest(n.claims));
    SortedSnoc(n.deliveries, Latest(n.claims));
    assert n.mode.claimed == ClaimOf(Latest(n.claims));
    hide InLine;
    DeliveredInLine(n.disk.directory.Keys, n.mode, n.claims, n.deliveries);
  }

  lemma RestartFifo(s: Setup, n: Net, nanos: nat)
    requires FifoOk(n)
    ensures FifoOk(Go(s, n, Restarts({}, nanos)))
  {
    var d := n.disk;
    var claims := BatchStores.Claims(d.directory);
    var stuck: set<string> := {};
    SortedNamesMeaning(set f | f in d.directory && EndsWith(f, CLAIMED));
    OpAccounted(d, s.maxBytes, Recover(stuck, nanos));
    RecoverAccounted(d, claims, stuck, nanos);
    if n.mode == Idle {
      NoneClaimed(n);
    } else {
      ClaimedIs(n);
      OneClaimed(n, stuck);
      var e := ReturnAll(d, claims, stuck).0;
      hide Accounted, Book, Less, EndsWith, WithoutSuffix, Sorted, InLine, BatchStores.Claims, ReturnAll, RecoverAll;
      LetGo(d.directory.Keys, e.directory.Keys, n.mode, n.claims, n.deliveries);
    }
  }

  lemma NoneClaimed(n: Net)
    requires FifoOk(n) && n.mode == Idle
    ensures BatchStores.Claims(n.disk.directory) == []
  {
    hide Accounted, Book, Less, Sorted;
    forall f | f in n.disk.directory ensures !EndsWith(f, CLAIMED) {
      if EndsWith(f, CLAIMED) { ClaimedName(f); SuffixesDiffer(f); }
    }
  }

  lemma ClaimsFound(n: Net)
    requires FifoOk(n) && n.mode != Idle
    ensures BatchStores.Claims(n.disk.directory) == if n.mode.claimed in n.disk.directory then [n.mode.claimed] else []
  {
    ClaimedIs(n);
    hide Accounted, Book, Less, Sorted, WithoutSuffix, Known, NonDecreasing;
    var c, dir := n.mode.claimed, n.disk.directory;
    var found := set f | f in dir && EndsWith(f, CLAIMED);
    forall f | f in found ensures f == c { ClaimedName(f); if EndsWith(f, SUFFIX) { SuffixesDiffer(f); } }
    hide InLine, EndsWith;
    assert found == if c in dir then {c} else {};
    OnlyOne(c);
  }

  lemma ReturnsOne(d: Disk, c: string)
    requires c in d.directory
    ensures ReturnAll(d, [c], {}).0 == d.(directory := Rename(d.directory, c, WithoutSuffix(c, CLAIM)))
  {
    hide Rename, WithoutSuffix;
    assert [c][1..] == [];
  }

  lemma OneClaimed(n: Net, stuck: set<string>)
    requires FifoOk(n) && n.mode != Idle && stuck == {}
    ensures var c, d := n.mode.claimed, n.disk;
            var e := ReturnAll(d, BatchStores.Claims(d.directory), stuck).0;
            forall f | f in e.directory :: (f in d.directory && f != c) || (f == Latest(n.claims) && c in d.directory)
  {
    ClaimsFound(n);
    ClaimedIs(n);
    hide FifoOk, WithoutSuffix, EndsWith, BatchStores.Claims;
    var c, d := n.mode.claimed, n.disk;
    if c in d.directory {
      hide ReturnAll;
      ReturnsOne(d, c);
    }
  }

  lemma OnlyOne(c: string)
    ensures SortedNames({c}) == [c]
  {
    SortedNamesMeaning({c});
    var names := SortedNames({c});
    assert c in names && forall x | x in names :: x == c;
    if |names| > 1 {
      assert names[0] in names && names[1] in names && Less(names[0], names[1]);
      LessTotal(c, c);
    }
  }

  // ---------------------------------------------------------------- whole runs

  lemma StepFifo(s: Setup, n: Net, steps: seq<Step>, step: Step)
    requires FifoOk(n) && FromWrites(n, steps) && ClocksRise(steps + [step]) && Smooth(step)
    ensures FifoOk(Go(s, n, step))
  {
    hide FifoOk, FromWrites, ClocksRise, Receive, Return, RecoverAll, Publish, AdmitCall, AppendCall, Post;
    match step
    case Writes(records, io) => WriteFifo(s, n, steps, step);
    case Claims(stuck) => ClaimFifo(s, n, stuck);
    case Receives(now, o) =>
      if n.mode.Waiting? && n.mode.call < |n.calls| && n.calls[n.mode.call].phase.Done? { ReceiveFifo(s, n, now, o); }
    case GivesUp(renameOk, stuck) => if n.mode != Idle { ReturnFifo(s, n, stuck); }
    case Restarts(stuck, nanos) => RestartFifo(s, n, nanos);
    case _ => CallsFifo(s, n, step);
  }

  /** What happens to calls is nothing to the queue; posting keeps the claim. */
  lemma CallsFifo(s: Setup, n: Net, step: Step)
    requires FifoOk(n) && (step.Sends? || step.Admits? || step.Appends? || step.Bounces? || step.Consumes?)
    ensures FifoOk(Go(s, n, step))
  {
    hide Accounted, Book, Less, EndsWith, WithoutSuffix, Sorted, NonDecreasing, Ingest.Admit, Prepare, Ingest.Landed, Ingest.Answer;
    var m := Go(s, n, step);
    assert m.disk == n.disk && m.claims == n.claims && m.deliveries == n.deliveries;
    assert m.mode == n.mode || (n.mode.Holding? && m.mode.Waiting? && m.mode.claimed == n.mode.claimed);
  }

  lemma WrittenMore(s: Setup, n: Net, steps: seq<Step>, step: Step)
    requires FromWrites(n, steps)
    ensures FromWrites(Go(s, n, step), steps + [step])
  {
    var m, all := Go(s, n, step), steps + [step];
    BookGrows(s, n, step);
    hide Go, Book, NewBatchName;
    forall x | x in Book(m.disk.published)
      ensures exists i :: 0 <= i < |all| && Published(all[i]) && NewName(all[i].io) == x
    {
      if x in Book(n.disk.published) {
        var i :| 0 <= i < |steps| && Published(steps[i]) && NewName(steps[i].io) == x;
        assert all[i] == steps[i];
      } else {
        assert all[|steps|] == step;
      }
    }
  }

  lemma BookGrows(s: Setup, n: Net, step: Step)
    ensures forall x | x in Book(Go(s, n, step).disk.published) ::
              x in Book(n.disk.published) || (Published(step) && x == NewName(step.io))
  {
    hide Book, NewBatchName, VictimSet, ClaimOldest, AdmitCall, AppendCall, Post, Receive, Return;
    match step
    case Writes(records, io) =>
      if io.WriteDone? { BookSnoc(n.disk.published, Publication(NewName(io), Batch(records, io.size))); }
    case Claims(stuck) => ClaimPublishes(n.disk, stuck);
    case Receives(now, o) =>
      if n.mode.Waiting? && n.mode.call < |n.calls| && n.calls[n.mode.call].phase.Done? { ReceivePublishes(s, n, now, o); }
    case GivesUp(renameOk, stuck) => if n.mode != Idle { ReturnPublishes(n.disk, s.maxBytes, n.mode.claimed, renameOk, stuck); }
    case Restarts(stuck, nanos) => RecoverHistory(n.disk, BatchStores.Claims(n.disk.directory), stuck, nanos);
    case _ => CallsDisk(s, n, step);
  }

  lemma CallsDisk(s: Setup, n: Net, step: Step)
    requires step.Sends? || step.Admits? || step.Appends? || step.Bounces? || step.Consumes?
    ensures Go(s, n, step).disk == n.disk
  {
    hide Ingest.Admit, Prepare, Ingest.Landed, Ingest.Answer, WithoutSuffix;
  }

  lemma ClaimPublishes(d: Disk, stuck: set<string>)
    ensures ClaimOldest(d, stuck).0.published == d.published
  {
  }

  lemma ReturnPublishes(d: Disk, maxBytes: int, c: string, renameOk: bool, stuck: set<string>)
    ensures Return(d, maxBytes, c, renameOk, stuck).0.published == d.published
  {
    hide EndsWith, WithoutSuffix, VictimSet;
  }

  lemma ReceivePublishes(s: Setup, n: Net, now: int, o: Outcome)
    requires n.mode.Waiting? && n.mode.call < |n.calls| && n.calls[n.mode.call].phase.Done?
    ensures Receive(s, n, now, o).disk.published == n.disk.published
  {
    hide EndsWith, WithoutSuffix, Return, Classify;
    ReturnPublishes(n.disk, s.maxBytes, n.mode.claimed, o.renameOk, o.stuck);
  }

  lemma SmoothPrefix(steps: seq<Step>, step: Step)
    requires SmoothRun(steps + [step])
    ensures SmoothRun(steps) && ClocksRise(steps + [step]) && Smooth(step)
  {
    hide Smooth, InRange, Earlier, Fields;
    var all := steps + [step];
    assert all[|steps|] == step;
    forall i | 0 <= i < |steps| ensures all[i] == steps[i] {}
  }

  lemma {:induction false} RunFifo(s: Setup, steps: seq<Step>)
    requires SmoothRun(steps)
    ensures FifoOk(GoAll(s, START, steps)) && FromWrites(GoAll(s, START, steps), steps)
  {
    hide Go;
    if steps != [] {
      var before, step := steps[..|steps| - 1], steps[|steps| - 1];
      assert steps == before + [step];
      SmoothPrefix(before, step);
      hide FifoOk, FromWrites, SmoothRun, ClocksRise, Smooth;
      RunFifo(s, before);
      StepFifo(s, GoAll(s, START, before), before, step);
      WrittenMore(s, GoAll(s, START, before), before, step);
    }
  }

  /** FIFO delivery: over every run in which the clock rises from write to write and renames
      succeed, names are claimed in non-decreasing and delivered in strictly increasing order,
      whatever is retried, evicted, quarantined or recovered in between. */
  lemma FirstInFirstOut(s: Setup, steps: seq<Step>)
    requires SmoothRun(steps)
    ensures NonDecreasing(GoAll(s, START, steps).claims) && Sorted(GoAll(s, START, steps).deliveries)
  {
    RunFifo(s, steps);
  }
}
