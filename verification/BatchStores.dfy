/**
 The operations of the agent's disk queue: batches are published under fresh
 names, claimed by renaming, returned, deleted, quarantined and, after a
 restart, recovered; none is ever lost from the books.
 */
module BatchStores {
  import opened Names
  import opened Text
  import opened Schema
  import opened Eviction

  // ---------------------------------------------------------------- the operations

  /** How writing a batch went: it failed before the rename, or it was published under
      `name` with `size` compressed bytes; files in `stuck` cannot be removed. */
  datatype WriteIO = WriteFailed | WriteDone(now: Clock, random: seq<nat>, size: nat, stuck: set<string>)

  datatype DiskOp =
    | Write(records: seq<Log>, io: WriteIO)
    | Claim(stuck: set<string>)
    | Unclaim(claimed: string, renameOk: bool, stuck: set<string>)
    | Delete(claimed: string, removeOk: bool)
    | Quarantine(claimed: string, renameOk: bool)
    | Recover(stuck: set<string>, nanos: nat)

  /** The path a batch is claimed under. */
  function ClaimOf(name: string): string {
    name + CLAIM
  }

  function Rename(dir: Directory, from: string, to: string): Directory
    requires from in dir
  {
    (dir - {from})[to := dir[from]]
  }

  function Publish(d: Disk, maxBytes: int, records: seq<Log>, io: WriteIO): Disk {
    if io.WriteFailed? then d
    else
      var name, batch := NewBatchName(io.now, io.random), Batch(records, io.size);
      Evict(d.(directory := d.directory[name := batch], published := d.published + [Publication(name, batch)]),
            maxBytes, io.stuck)
  }

  /** The oldest listed name that can be renamed, or "". */
  function FirstClaimable(names: seq<string>, stuck: set<string>): (n: string)
    ensures n == "" || (n in names && n !in stuck)
  {
    if names == [] then "" else if names[0] !in stuck then names[0] else FirstClaimable(names[1..], stuck)
  }

  function ClaimOldest(d: Disk, stuck: set<string>): (Disk, string) {
    var n := FirstClaimable(Listing(d.directory), stuck);
    if n == "" || n !in d.directory then (d, "")
    else (d.(directory := Rename(d.directory, n, ClaimOf(n))), ClaimOf(n))
  }

  function Return(d: Disk, maxBytes: int, claimed: string, renameOk: bool, stuck: set<string>): (Disk, bool) {
    if !EndsWith(claimed, CLAIMED) then (d, false)
    else if claimed !in d.directory then (Evict(d, maxBytes, stuck), true)
    else if !renameOk then (d, false)
    else (Evict(d.(directory := Rename(d.directory, claimed, WithoutSuffix(claimed, CLAIM))), maxBytes, stuck), true)
  }

  function DeleteClaim(d: Disk, claimed: string, removeOk: bool): (Disk, bool) {
    if claimed !in d.directory then (d, true)
    else if !removeOk then (d, false)
    else (d.(directory := d.directory - {claimed},
             delivered := d.delivered[WithoutSuffix(claimed, CLAIM) := d.directory[claimed]]), true)
  }

  function MoveToFailed(d: Disk, claimed: string, renameOk: bool): (Disk, bool) {
    var name := WithoutSuffix(claimed, CLAIM);
    if !EndsWith(name, SUFFIX) || claimed !in d.directory || !renameOk then (d, false)
    else (d.(directory := d.directory - {claimed}, failed := d.failed[name := d.directory[claimed]]), true)
  }

  function Claims(dir: Directory): seq<string> {
    SortedNames(set n | n in dir && EndsWith(n, CLAIMED))
  }

  /** The name a recovered claim gets: its own, or a marked one when that is taken. */
  function RecoveredName(dir: Directory, claimed: string, nanos: nat): string {
    var pending := WithoutSuffix(claimed, CLAIM);
    if pending in dir then WithoutSuffix(pending, SUFFIX) + "-recovered-" + Decimal(nanos) + SUFFIX else pending
  }

  function RecoverAll(d: Disk, claims: seq<string>, stuck: set<string>, nanos: nat): (Disk, bool)
    decreases |claims|
  {
    if claims == [] then (d, true)
    else if claims[0] in stuck || claims[0] !in d.directory then (d, false)
    else
      RecoverAll(d.(directory := Rename(d.directory, claims[0], RecoveredName(d.directory, claims[0], nanos))),
                 claims[1..], stuck, nanos)
  }

  /** Recovery when no name is ever taken. */
  function ReturnAll(d: Disk, claims: seq<string>, stuck: set<string>): (Disk, bool)
    decreases |claims|
  {
    if claims == [] then (d, true)
    else if claims[0] in stuck || claims[0] !in d.directory then (d, false)
    else ReturnAll(d.(directory := Rename(d.directory, claims[0], WithoutSuffix(claims[0], CLAIM))), claims[1..], stuck)
  }

  function RecoverClaims(d: Disk, stuck: set<string>, nanos: nat): (Disk, bool) {
    RecoverAll(d, Claims(d.directory), stuck, nanos)
  }

  function Apply(d: Disk, maxBytes: int, op: DiskOp): Disk {
    match op
    case Write(records, io) => Publish(d, maxBytes, records, io)
    case Claim(stuck) => ClaimOldest(d, stuck).0
    case Unclaim(claimed, renameOk, stuck) => Return(d, maxBytes, claimed, renameOk, stuck).0
    case Delete(claimed, removeOk) => DeleteClaim(d, claimed, removeOk).0
    case Quarantine(claimed, renameOk) => MoveToFailed(d, claimed, renameOk).0
    case Recover(stuck, nanos) => RecoverClaims(d, stuck, nanos).0
  }

  // ---------------------------------------------------------------- conservation

  /** Everything ever published, by name. */
  function Book(ps: seq<Publication>): Directory {
    if ps == [] then map[] else Book(ps[..|ps| - 1])[ps[|ps| - 1].name := ps[|ps| - 1].batch]
  }

  /** The batch `n` is in exactly one of pending, claimed, failed, delivered and evicted,
      with the contents it was published with. */
  predicate Once(d: Disk, n: string, b: Batch) {
    var c := ClaimOf(n);
    if n in d.directory then
      d.directory[n] == b && c !in d.directory && n !in d.failed && n !in d.delivered && n !in d.evicted
    else if c in d.directory then
      d.directory[c] == b && n !in d.failed && n !in d.delivered && n !in d.evicted
    else if n in d.failed then d.failed[n] == b && n !in d.delivered && n !in d.evicted
    else if n in d.delivered then d.delivered[n] == b && n !in d.evicted
    else n in d.evicted && d.evicted[n] == b
  }

  /** A file of the queue is a published batch, pending or claimed. */
  predicate Owned(d: Disk, f: string) {
    var n := WithoutSuffix(f, CLAIM);
    n in Book(d.published) && (f == n || f == ClaimOf(n))
  }

  ghost predicate Accounted(d: Disk) {
    var book := Book(d.published);
    && (forall n | n in book :: EndsWith(n, SUFFIX) && Once(d, n, book[n]))
    && (forall f | f in d.directory :: Owned(d, f))
    && d.failed.Keys <= book.Keys && d.delivered.Keys <= book.Keys && d.evicted.Keys <= book.Keys
  }

  /** A batch is never written under a name used before, and the sender passes on only the
      paths that a claim gave it. */
  predicate Proper(d: Disk, op: DiskOp) {
    match op
    case Write(_, io) => io.WriteDone? ==> NewBatchName(io.now, io.random) !in Book(d.published)
    case Unclaim(claimed, _, _) => EndsWith(claimed, CLAIMED)
    case Delete(claimed, _) => EndsWith(claimed, CLAIMED)
    case Quarantine(claimed, _) => EndsWith(claimed, CLAIMED)
    case _ => true
  }

  lemma ClaimName(n: string)
    requires EndsWith(n, SUFFIX)
    ensures EndsWith(ClaimOf(n), CLAIMED) && EndsWith(ClaimOf(n), CLAIM) && !EndsWith(ClaimOf(n), SUFFIX)
    ensures WithoutSuffix(ClaimOf(n), CLAIM) == n && WithoutSuffix(n, CLAIM) == n && n != ""
  {
    SuffixesDiffer(n);
    var c := ClaimOf(n);
    assert c[|c| - |CLAIM|..] == CLAIM && c[..|c| - |CLAIM|] == n;
    assert c[|c| - |CLAIMED|..] == n[|n| - |SUFFIX|..] + CLAIM;
    if EndsWith(c, SUFFIX) { SuffixesDiffer(c); }
  }

  lemma ClaimedName(c: string)
    requires EndsWith(c, CLAIMED)
    ensures EndsWith(c, CLAIM) && EndsWith(WithoutSuffix(c, CLAIM), SUFFIX) && c == ClaimOf(WithoutSuffix(c, CLAIM))
  {
    assert c[|c| - |CLAIMED|..][|SUFFIX|..] == CLAIM;
    assert c[|c| - |CLAIM|..] == c[|c| - |CLAIMED|..][|SUFFIX|..];
    var n := WithoutSuffix(c, CLAIM);
    assert n == c[..|c| - |CLAIM|];
    assert n[|n| - |SUFFIX|..] == c[|c| - |CLAIMED|..][..|SUFFIX|] == SUFFIX;
  }

  lemma NamesApart(m: string, n: string)
    requires EndsWith(m, SUFFIX) && EndsWith(n, SUFFIX)
    ensures m != ClaimOf(n) && (m != n ==> ClaimOf(m) != ClaimOf(n))
  {
    ClaimName(n);
    ClaimName(m);
  }

  lemma NewNameEnds(io: WriteIO)
    requires io.WriteDone?
    ensures EndsWith(NewBatchName(io.now, io.random), SUFFIX)
  {
    var n := NewBatchName(io.now, io.random);
    assert n == (Render(Fields(io.now), LAYOUT) + ("Z-" + Hex(io.random))) + SUFFIX;
  }

  lemma BookSnoc(ps: seq<Publication>, p: Publication)
    ensures Book(ps + [p]) == Book(ps)[p.name := p.batch]
  {
    assert (ps + [p])[..|ps|] == ps;
  }

  predicate SameAt(x: Directory, y: Directory, f: string) {
    (f in x <==> f in y) && (f in x ==> x[f] == y[f])
  }

  /** From `d` to `e` files change only at the batch `n`. */
  ghost predicate OnlyAt(d: Disk, e: Disk, n: string) {
    && e.published == d.published
    && (forall f | f != n && f != ClaimOf(n) :: SameAt(e.directory, d.directory, f))
    && (forall f | f != n :: SameAt(e.failed, d.failed, f))
    && (forall f | f != n :: SameAt(e.delivered, d.delivered, f))
    && (forall f | f != n :: SameAt(e.evicted, d.evicted, f))
  }

  lemma OtherKept(d: Disk, e: Disk, n: string, m: string, b: Batch)
    requires OnlyAt(d, e, n) && m != n && EndsWith(m, SUFFIX) && EndsWith(n, SUFFIX) && Once(d, m, b)
    ensures Once(e, m, b)
  {
    NamesApart(m, n);
    NamesApart(n, m);
    hide EndsWith, OnlyAt, ClaimOf;
    assert SameAt(e.directory, d.directory, m) && SameAt(e.directory, d.directory, ClaimOf(m))
        && SameAt(e.failed, d.failed, m) && SameAt(e.delivered, d.delivered, m) && SameAt(e.evicted, d.evicted, m) by {
      OnlyAtSame(d, e, n, m);
    }
  }

  lemma SameAnywhere(d: Disk)
    ensures forall f :: SameAt(d.directory, d.directory, f) && SameAt(d.failed, d.failed, f)
              && SameAt(d.delivered, d.delivered, f) && SameAt(d.evicted, d.evicted, f)
  {
  }

  lemma RenameFrame(x: Directory, from: string, to: string)
    requires from != to
    ensures from in x ==> forall f | f != from && f != to :: SameAt(Rename(x, from, to), x, f)
    ensures to in x ==> forall f | f != from && f != to :: SameAt(Rename(x, to, from), x, f)
    ensures forall f | f != to :: SameAt(x - {to}, x, f)
  {
  }

  lemma UpdateFrame(x: Directory, y: Directory, n: string, b: Batch)
    requires y == x[n := b]
    ensures forall f | f != n :: SameAt(y, x, f)
  {
  }

  lemma OnlyAtKeys(d: Disk, e: Disk, n: string, f: string)
    requires OnlyAt(d, e, n) && f != n
    ensures f != ClaimOf(n) ==> (f in e.directory <==> f in d.directory)
    ensures f in e.failed || f in e.delivered || f in e.evicted ==> f in d.failed || f in d.delivered || f in d.evicted
  {
    OnlyAtSame(d, e, n, f);
  }

  lemma OnlyAtSame(d: Disk, e: Disk, n: string, m: string)
    requires OnlyAt(d, e, n) && m != n
    ensures m != ClaimOf(n) ==> SameAt(e.directory, d.directory, m)
    ensures ClaimOf(m) != n && ClaimOf(m) != ClaimOf(n) ==> SameAt(e.directory, d.directory, ClaimOf(m))
    ensures SameAt(e.failed, d.failed, m) && SameAt(e.delivered, d.delivered, m) && SameAt(e.evicted, d.evicted, m)
  {
    hide SameAt, ClaimOf;
  }

  lemma OtherOnce(d: Disk, e: Disk, n: string, m: string)
    requires Accounted(d) && EndsWith(n, SUFFIX) && OnlyAt(d, e, n) && m in Book(d.published) && m != n
    ensures EndsWith(m, SUFFIX) && Once(e, m, Book(d.published)[m])
  {
    hide EndsWith, Book, Once, OnlyAt, Owned;
    OtherKept(d, e, n, m, Book(d.published)[m]);
  }

  lemma OtherFiles(d: Disk, e: Disk, n: string, f: string)
    requires Accounted(d) && EndsWith(n, SUFFIX) && OnlyAt(d, e, n) && e.published == d.published
    requires n in Book(d.published)
    ensures f in e.directory ==> Owned(e, f)
    ensures f in e.failed || f in e.delivered || f in e.evicted ==> f in Book(d.published)
  {
    ClaimName(n);
    hide EndsWith, WithoutSuffix, Book, Once, OnlyAt, ClaimOf;
    if f != n {
      OnlyAtKeys(d, e, n, f);
      if f in e.directory && f != ClaimOf(n) { assert Owned(d, f); }
    }
  }

  /** The book entries of all other batches are untouched when files change only at `n`. */
  lemma OthersKept(d: Disk, e: Disk, n: string)
    requires Accounted(d) && EndsWith(n, SUFFIX) && OnlyAt(d, e, n) && e.published == d.published
    requires n in Book(d.published) && Once(e, n, Book(d.published)[n])
    ensures Accounted(e)
  {
    var book := Book(d.published);
    hide EndsWith, Book, Once, OnlyAt, Owned;
    forall m | m in book ensures EndsWith(m, SUFFIX) && Once(e, m, book[m]) {
      if m != n { OtherOnce(d, e, n, m); }
    }
    forall f | f in e.directory ensures Owned(e, f) { OtherFiles(d, e, n, f); }
    forall f | f in e.failed || f in e.delivered || f in e.evicted ensures f in book { OtherFiles(d, e, n, f); }
  }

  lemma PublishAccounted(d: Disk, name: string, b: Batch)
    requires Accounted(d) && EndsWith(name, SUFFIX) && name !in Book(d.published)
    ensures Accounted(d.(directory := d.directory[name := b], published := d.published + [Publication(name, b)]))
  {
    hide EndsWith, WithoutSuffix, Book, ClaimOf;
    var e := d.(directory := d.directory[name := b], published := d.published + [Publication(name, b)]);
    var book := Book(d.published);
    BookSnoc(d.published, Publication(name, b));
    ClaimName(name);
    assert !Owned(d, name) && !Owned(d, ClaimOf(name));
    assert name !in d.directory && ClaimOf(name) !in d.directory;
    forall m | m in Book(e.published) ensures EndsWith(m, SUFFIX) && Once(e, m, Book(e.published)[m]) {
      if m != name { NamesApart(m, name); NamesApart(name, m); assert Once(d, m, book[m]); }
    }
    forall f | f in e.directory ensures Owned(e, f) {
      if f != name { assert Owned(d, f); }
    }
  }

  lemma EvictAccounted(d: Disk, maxBytes: int, stuck: set<string>)
    requires Accounted(d)
    ensures Accounted(Evict(d, maxBytes, stuck)) && Evict(d, maxBytes, stuck).published == d.published
  {
    var e := Evict(d, maxBytes, stuck);
    var gone := VictimSet(d.directory, maxBytes, stuck);
    var book := Book(d.published);
    EvictionEnough(d.directory, maxBytes, stuck);
    forall n | n in gone ensures n in book {
      assert Owned(d, n);
    }
    forall m | m in book ensures EndsWith(m, SUFFIX) && Once(e, m, book[m]) {
      assert Once(d, m, book[m]);
      ClaimName(m);
      assert ClaimOf(m) !in gone;
    }
    forall f | f in e.directory ensures Owned(e, f) {
      assert Owned(d, f);
    }
  }

  lemma PlaceOf(d: Disk, n: string)
    requires Accounted(d) && EndsWith(n, SUFFIX)
    ensures n in d.directory || ClaimOf(n) in d.directory ==>
              && n in Book(d.published)
              && !(n in d.directory && ClaimOf(n) in d.directory)
              && n !in d.failed && n !in d.delivered && n !in d.evicted
              && (n in d.directory ==> d.directory[n] == Book(d.published)[n])
              && (ClaimOf(n) in d.directory ==> d.directory[ClaimOf(n)] == Book(d.published)[n])
  {
    ClaimName(n);
    hide EndsWith, WithoutSuffix, Book, ClaimOf;
    assert n in d.directory ==> Owned(d, n);
    assert ClaimOf(n) in d.directory ==> Owned(d, ClaimOf(n));
    assert n in Book(d.published) ==> Once(d, n, Book(d.published)[n]);
  }

  lemma ClaimMoves(d: Disk, n: string)
    requires Accounted(d) && EndsWith(n, SUFFIX) && n in d.directory
    ensures var e := d.(directory := Rename(d.directory, n, ClaimOf(n)));
            n in Book(d.published) && OnlyAt(d, e, n) && Once(e, n, Book(d.published)[n])
  {
    hide Accounted, EndsWith, WithoutSuffix, Book, ClaimOf, SameAt;
    PlaceOf(d, n);
    NamesApart(n, n);
    SameAnywhere(d);
    RenameFrame(d.directory, n, ClaimOf(n));
  }

  lemma ClaimAccounted(d: Disk, n: string)
    requires Accounted(d) && EndsWith(n, SUFFIX) && n in d.directory
    ensures Accounted(d.(directory := Rename(d.directory, n, ClaimOf(n))))
  {
    ClaimMoves(d, n);
    PlaceOf(d, n);
    hide Accounted, EndsWith, WithoutSuffix, Book, ClaimOf, OnlyAt, Once, Rename;
    OthersKept(d, d.(directory := Rename(d.directory, n, ClaimOf(n))), n);
  }

  lemma UnclaimMoves(d: Disk, n: string)
    requires Accounted(d) && EndsWith(n, SUFFIX) && ClaimOf(n) in d.directory
    ensures var e := d.(directory := Rename(d.directory, ClaimOf(n), n));
            n in Book(d.published) && OnlyAt(d, e, n) && Once(e, n, Book(d.published)[n])
  {
    hide Accounted, EndsWith, WithoutSuffix, Book, ClaimOf, SameAt;
    PlaceOf(d, n);
    NamesApart(n, n);
    SameAnywhere(d);
    RenameFrame(d.directory, n, ClaimOf(n));
  }

  lemma UnclaimAccounted(d: Disk, n: string)
    requires Accounted(d) && EndsWith(n, SUFFIX) && ClaimOf(n) in d.directory
    ensures n !in d.directory && Accounted(d.(directory := Rename(d.directory, ClaimOf(n), n)))
  {
    UnclaimMoves(d, n);
    PlaceOf(d, n);
    hide Accounted, EndsWith, WithoutSuffix, Book, ClaimOf, OnlyAt, Once, Rename;
    OthersKept(d, d.(directory := Rename(d.directory, ClaimOf(n), n)), n);
  }

  lemma DeleteMoves(d: Disk, n: string)
    requires Accounted(d) && EndsWith(n, SUFFIX) && ClaimOf(n) in d.directory
    ensures var e := d.(directory := d.directory - {ClaimOf(n)}, delivered := d.delivered[n := d.directory[ClaimOf(n)]]);
            n in Book(d.published) && OnlyAt(d, e, n) && Once(e, n, Book(d.published)[n])
  {
    hide Accounted, EndsWith, WithoutSuffix, Book, ClaimOf, SameAt;
    PlaceOf(d, n);
    NamesApart(n, n);
    SameAnywhere(d);
    RenameFrame(d.directory, n, ClaimOf(n));
    var b := d.directory[ClaimOf(n)];
    UpdateFrame(d.delivered, d.delivered[n := b], n, b);
  }

  lemma DeleteAccounted(d: Disk, n: string)
    requires Accounted(d) && EndsWith(n, SUFFIX) && ClaimOf(n) in d.directory
    ensures Accounted(d.(directory := d.directory - {ClaimOf(n)}, delivered := d.delivered[n := d.directory[ClaimOf(n)]]))
  {
    DeleteMoves(d, n);
    PlaceOf(d, n);
    hide Accounted, EndsWith, WithoutSuffix, Book, ClaimOf, OnlyAt, Once, Rename;
    OthersKept(d, d.(directory := d.directory - {ClaimOf(n)}, delivered := d.delivered[n := d.directory[ClaimOf(n)]]), n);
  }

  lemma QuarantineMoves(d: Disk, n: string)
    requires Accounted(d) && EndsWith(n, SUFFIX) && ClaimOf(n) in d.directory
    ensures var e := d.(directory := d.directory - {ClaimOf(n)}, failed := d.failed[n := d.directory[ClaimOf(n)]]);
            n in Book(d.published) && OnlyAt(d, e, n) && Once(e, n, Book(d.published)[n])
  {
    hide Accounted, EndsWith, WithoutSuffix, Book, ClaimOf, SameAt;
    PlaceOf(d, n);
    NamesApart(n, n);
    SameAnywhere(d);
    RenameFrame(d.directory, n, ClaimOf(n));
    var b := d.directory[ClaimOf(n)];
    UpdateFrame(d.failed, d.failed[n := b], n, b);
  }

  lemma QuarantineAccounted(d: Disk, n: string)
    requires Accounted(d) && EndsWith(n, SUFFIX) && ClaimOf(n) in d.directory
    ensures Accounted(d.(directory := d.directory - {ClaimOf(n)}, failed := d.failed[n := d.directory[ClaimOf(n)]]))
  {
    QuarantineMoves(d, n);
    PlaceOf(d, n);
    hide Accounted, EndsWith, WithoutSuffix, Book, ClaimOf, OnlyAt, Once, Rename;
    OthersKept(d, d.(directory := d.directory - {ClaimOf(n)}, failed := d.failed[n := d.directory[ClaimOf(n)]]), n);
  }

  /** Recovery returns each claim to its own name: the marked name is never needed. */
  lemma {:induction false} RecoverAccounted(d: Disk, claims: seq<string>, stuck: set<string>, nanos: nat)
    requires Accounted(d) && forall c | c in claims :: EndsWith(c, CLAIMED)
    ensures Accounted(RecoverAll(d, claims, stuck, nanos).0)
    ensures RecoverAll(d, claims, stuck, nanos).0.published == d.published
    ensures RecoverAll(d, claims, stuck, nanos) == ReturnAll(d, claims, stuck)
    decreases |claims|
  {
    if claims != [] {
      var c := claims[0];
      assert c in claims;
      ClaimedName(c);
      if c in d.directory { UnclaimAccounted(d, WithoutSuffix(c, CLAIM)); }
      if c !in stuck && c in d.directory {
        forall x | x in claims[1..] ensures EndsWith(x, CLAIMED) { assert x in claims; }
        RecoverAccounted(d.(directory := Rename(d.directory, c, WithoutSuffix(c, CLAIM))), claims[1..], stuck, nanos);
      }
    }
  }

  /** Recovery moves files and touches no book. */
  lemma {:induction false} RecoverHistory(d: Disk, claims: seq<string>, stuck: set<string>, nanos: nat)
    ensures var e := RecoverAll(d, claims, stuck, nanos).0;
            e.published == d.published && e.delivered == d.delivered && e.failed == d.failed && e.evicted == d.evicted
    decreases |claims|
  {
    hide RecoveredName;
    if claims != [] && claims[0] !in stuck && claims[0] in d.directory {
      RecoverHistory(d.(directory := Rename(d.directory, claims[0], RecoveredName(d.directory, claims[0], nanos))),
                     claims[1..], stuck, nanos);
    }
  }

  lemma FirstClaimableListed(d: Disk, stuck: set<string>)
    ensures var n := FirstClaimable(Listing(d.directory), stuck);
            n != "" ==> n in d.directory && EndsWith(n, SUFFIX) && n !in stuck
  {
    SortedNamesMeaning(Pending(d.directory));
  }

  /** Conservation: every operation, with any outcome of its system calls, leaves each
      published batch in exactly one place with its contents unchanged. */
  lemma OpAccounted(d: Disk, maxBytes: int, op: DiskOp)
    requires Accounted(d) && Proper(d, op)
    ensures Accounted(Apply(d, maxBytes, op))
  {
    hide Accounted, Evict;
    match op
    case Write(records, io) =>
      if io.WriteDone? {
        var name, b := NewBatchName(io.now, io.random), Batch(records, io.size);
        NewNameEnds(io);
        PublishAccounted(d, name, b);
        EvictAccounted(d.(directory := d.directory[name := b], published := d.published + [Publication(name, b)]),
                       maxBytes, io.stuck);
      }
    case Claim(stuck) =>
      FirstClaimableListed(d, stuck);
      var n := FirstClaimable(Listing(d.directory), stuck);
      if n != "" { ClaimAccounted(d, n); }
    case Unclaim(claimed, renameOk, stuck) =>
      ClaimedName(claimed);
      EvictAccounted(d, maxBytes, stuck);
      if claimed in d.directory {
        UnclaimAccounted(d, WithoutSuffix(claimed, CLAIM));
        EvictAccounted(d.(directory := Rename(d.directory, claimed, WithoutSuffix(claimed, CLAIM))), maxBytes, stuck);
      }
    case Delete(claimed, removeOk) =>
      ClaimedName(claimed);
      if claimed in d.directory { DeleteAccounted(d, WithoutSuffix(claimed, CLAIM)); }
    case Quarantine(claimed, renameOk) =>
      ClaimedName(claimed);
      if claimed in d.directory { QuarantineAccounted(d, WithoutSuffix(claimed, CLAIM)); }
    case Recover(stuck, nanos) =>
      SortedNamesMeaning(set n | n in d.directory && EndsWith(n, CLAIMED));
      RecoverAccounted(d, Claims(d.directory), stuck, nanos);
  }

  function ApplyAll(d: Disk, maxBytes: int, ops: seq<DiskOp>): Disk {
    if ops == [] then d else Apply(ApplyAll(d, maxBytes, ops[..|ops| - 1]), maxBytes, ops[|ops| - 1])
  }

  ghost predicate ProperRun(d: Disk, maxBytes: int, ops: seq<DiskOp>) {
    forall i | 0 <= i < |ops| :: Proper(ApplyAll(d, maxBytes, ops[..i]), ops[i])
  }

  const EMPTY_DISK := Disk(map[], map[], [], map[], map[])

  /** Conservation over every interleaving of agent and sender operations and restarts. */
  lemma {:induction false} ConservedOverRuns(maxBytes: int, ops: seq<DiskOp>)
    requires ProperRun(EMPTY_DISK, maxBytes, ops)
    ensures Accounted(ApplyAll(EMPTY_DISK, maxBytes, ops))
  {
    if ops != [] {
      var n := |ops| - 1;
      forall i | 0 <= i < n ensures Proper(ApplyAll(EMPTY_DISK, maxBytes, ops[..n][..i]), ops[..n][i]) {
        assert ops[..n][..i] == ops[..i] && Proper(ApplyAll(EMPTY_DISK, maxBytes, ops[..i]), ops[i]);
      }
      ConservedOverRuns(maxBytes, ops[..n]);
      assert Proper(ApplyAll(EMPTY_DISK, maxBytes, ops[..n]), ops[n]);
      OpAccounted(ApplyAll(EMPTY_DISK, maxBytes, ops[..n]), maxBytes, ops[n]);
    }
  }

  // ---------------------------------------------------------------- the store

  /** A pending batch and its size, as the store lists it. */
  datatype StoredBatch = StoredBatch(path: string, size: nat)

  class BatchStore {
    const maxBytes: int
    var directory: Directory
    var failed: Directory
    ghost var published: seq<Publication>
    ghost var delivered: Directory
    ghost var evicted: Directory

    ghost function State(): Disk
      reads this
    {
      Disk(directory, failed, published, delivered, evicted)
    }

    /** Opens the queue found on disk; `ok` is false when a claim could not be recovered. */
    constructor (maxBytes: int, found: Disk)
      ensures this.maxBytes == maxBytes && State() == found
    {
      this.maxBytes := maxBytes;
      directory, failed := found.directory, found.failed;
      published, delivered, evicted := found.published, found.delivered, found.evicted;
    }

    static method NewBatchStore(found: Disk, maxBufferSizeMB: int, stuck: set<string>, nanos: nat)
      returns (store: BatchStore?)
      ensures store != null ==>
                && fresh(store) && store.maxBytes == maxBufferSizeMB * 1024 * 1024
                && (store.State(), true) == RecoverClaims(found, stuck, nanos)
      ensures store == null <==>
                maxBufferSizeMB < 1 || maxBufferSizeMB > MAX_DURATION / (1024 * 1024) || !RecoverClaims(found, stuck, nanos).1
    {
      if maxBufferSizeMB < 1 || maxBufferSizeMB > MAX_DURATION / (1024 * 1024) {
        return null;
      }
      store := new BatchStore(maxBufferSizeMB * 1024 * 1024, found);
      var ok := store.RecoverAllClaims(stuck, nanos);
      if !ok {
        store := null;
      }
    }

    method RecoverAllClaims(stuck: set<string>, nanos: nat) returns (ok: bool)
      modifies this
      ensures (State(), ok) == RecoverClaims(old(State()), stuck, nanos)
    {
      var entries := Claims(directory);
      for i := 0 to |entries|
        invariant RecoverAll(State(), entries[i..], stuck, nanos) == RecoverClaims(old(State()), stuck, nanos)
      {
        var claimed := entries[i];
        assert entries[i..][1..] == entries[i + 1..];
        var pending := WithoutSuffix(claimed, CLAIM);
        if pending in directory {
          pending := WithoutSuffix(pending, SUFFIX) + "-recovered-" + Decimal(nanos) + SUFFIX;
        }
        if claimed in stuck || claimed !in directory {
          return false;
        }
        directory := Rename(directory, claimed, pending);
      }
      return true;
    }

    method PendingBatches() returns (batches: seq<StoredBatch>)
      ensures |batches| == |Listing(directory)|
      ensures forall i | 0 <= i < |batches| ::
                batches[i].path == Listing(directory)[i] && batches[i].size == Size(directory, batches[i].path)
    {
      var names := Listing(directory);
      batches := [];
      for i := 0 to |names|
        invariant |batches| == i
        invariant forall k | 0 <= k < i :: batches[k].path == names[k] && batches[k].size == Size(directory, names[k])
      {
        batches := batches + [StoredBatch(names[i], Size(directory, names[i]))];
      }
    }

    static method TotalSize(batches: seq<StoredBatch>, ghost dir: Directory, ghost names: seq<string>)
      returns (total: int)
      requires |batches| == |names| && forall i | 0 <= i < |batches| :: batches[i].size == Size(dir, names[i])
      ensures total == Total(dir, names)
    {
      total := 0;
      for i := 0 to |batches|
        invariant total + Total(dir, names[i..]) == Total(dir, names)
      {
        assert names[i..][0] == names[i] && names[i..][1..] == names[i + 1..];
        total := total + batches[i].size;
      }
    }

    method EnforceLimit(stuck: set<string>)
      modifies this`directory, this`evicted
      ensures State() == Evict(old(State()), maxBytes, stuck)
    {
      hide Size, Total, Chosen, Pending;
      var batches := PendingBatches();
      ghost var names, dir := Listing(directory), directory;
      var total := TotalSize(batches, dir, names);
      AllListed(dir);
      ghost var gone: set<string> := {};
      NoneChosen(dir, evicted);
      var i := 0;
      while i < |batches| && total > maxBytes
        invariant 0 <= i <= |batches|
        invariant gone + (set n | n in Victims(dir, names[i..], total, maxBytes, stuck)) == VictimSet(dir, maxBytes, stuck)
        invariant directory == dir - gone && evicted == old(evicted) + Chosen(dir, gone)
      {
        assert names[i..][0] == names[i] && names[i..][1..] == names[i + 1..];
        var n := batches[i].path;
        if n !in stuck {
          OneMore(dir, old(evicted), gone, n);
          evicted := evicted[n := dir[n]];
          directory := directory - {n};
          total := total - batches[i].size;
          gone := gone + {n};
        }
        i := i + 1;
      }
      assert gone == VictimSet(dir, maxBytes, stuck);
    }

    /** Returns the published name, or "" when writing failed. */
    method WriteBatch(records: seq<Log>, io: WriteIO) returns (path: string)
      modifies this
      ensures State() == Publish(old(State()), maxBytes, records, io)
      ensures path == if io.WriteDone? then NewBatchName(io.now, io.random) else ""
    {
      if io.WriteFailed? {
        return "";
      }
      path := NewBatchName(io.now, io.random);
      directory := directory[path := Batch(records, io.size)];
      published := published + [Publication(path, Batch(records, io.size))];
      EnforceLimit(io.stuck);
    }

    method ClaimOldestBatch(stuck: set<string>) returns (claimed: string)
      modifies this`directory
      ensures (State(), claimed) == ClaimOldest(old(State()), stuck)
    {
      var batches := PendingBatches();
      ghost var names := Listing(directory);
      SortedNamesMeaning(Pending(directory));
      assert names[0..] == names;
      for i := 0 to |batches|
        invariant directory == old(directory)
        invariant FirstClaimable(names[i..], stuck) == FirstClaimable(names, stuck)
      {
        assert names[i..][0] == names[i] && names[i..][1..] == names[i + 1..] && names[i] in names;
        var n := batches[i].path;
        if n in stuck {
          continue;
        }
        directory := Rename(directory, n, ClaimOf(n));
        return ClaimOf(n);
      }
      return "";
    }

    method UnclaimBatch(claimed: string, renameOk: bool, stuck: set<string>) returns (ok: bool)
      modifies this
      ensures (State(), ok) == Return(old(State()), maxBytes, claimed, renameOk, stuck)
    {
      if !EndsWith(claimed, CLAIMED) {
        return false;
      }
      if claimed in directory {
        if !renameOk {
          return false;
        }
        directory := Rename(directory, claimed, WithoutSuffix(claimed, CLAIM));
      }
      EnforceLimit(stuck);
      return true;
    }

    method DeleteClaimed(claimed: string, removeOk: bool) returns (ok: bool)
      modifies this
      ensures (State(), ok) == DeleteClaim(old(State()), claimed, removeOk)
    {
      if claimed in directory {
        if !removeOk {
          return false;
        }
        delivered := delivered[WithoutSuffix(claimed, CLAIM) := directory[claimed]];
        directory := directory - {claimed};
      }
      return true;
    }

    method MoveClaimedToFailed(claimed: string, renameOk: bool) returns (ok: bool)
      modifies this
      ensures (State(), ok) == MoveToFailed(old(State()), claimed, renameOk)
    {
      var name := WithoutSuffix(claimed, CLAIM);
      if !EndsWith(name, SUFFIX) {
        return false;
      }
      if claimed !in directory || !renameOk {
        return false;
      }
      failed := failed[name := directory[claimed]];
      directory := directory - {claimed};
      return true;
    }

    method PendingCount() returns (n: nat)
      ensures n == |Pending(directory)|
    {
      var batches := PendingBatches();
      SortedNamesLength(Pending(directory));
      n := |batches|;
    }
  }

  lemma AllListed(dir: Directory)
    ensures forall i | 0 <= i < |Listing(dir)| :: Listing(dir)[i] in dir
    ensures Listing(dir)[0..] == Listing(dir)
  {
    SortedNamesMeaning(Pending(dir));
    assert forall i | 0 <= i < |Listing(dir)| :: Listing(dir)[i] in Listing(dir);
  }

  lemma NoneChosen(dir: Directory, before: Directory)
    ensures dir - {} == dir && before + Chosen(dir, {}) == before
  {
  }

  lemma {:induction false} SortedNamesLength(s: set<string>)
    ensures |SortedNames(s)| == |s|
    decreases s
  {
    if s != {} {
      SortedNamesMeaning(s);
      SortedNamesLength(s - {SortedNames(s)[0]});
    }
  }
}
