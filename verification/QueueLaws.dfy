/**
 The disk queue in terms of file names, file sizes and file contents: what the
 limit counts, what is evicted, and what each operation does to the directory.
 */
module QueueLaws {
  import opened Names
  import opened Text
  import opened Schema
  import opened Eviction
  import opened BatchStores

  // ---------------------------------------------------------------- the limit

  /** The sum of the sizes of some files. */
  ghost function Bytes(dir: Directory, names: set<string>): nat
    requires names <= dir.Keys
  {
    if names == {} then 0 else var n :| n in names; dir[n].size + Bytes(dir, names - {n})
  }

  predicate BatchFile(n: string) {
    |n| >= 8 && n[|n| - 8..] == ".json.gz"
  }

  function BatchFiles(dir: Directory): set<string> {
    set n | n in dir && BatchFile(n)
  }

  lemma {:induction false} BytesWithout(dir: Directory, names: set<string>, n: string)
    requires names <= dir.Keys && n in names
    ensures Bytes(dir, names) == dir[n].size + Bytes(dir, names - {n})
    decreases names
  {
    var m :| m in names && Bytes(dir, names) == dir[m].size + Bytes(dir, names - {m});
    if m != n {
      BytesWithout(dir, names - {m}, n);
      BytesWithout(dir, names - {n}, m);
      assert names - {m} - {n} == names - {n} - {m};
    }
  }

  lemma {:induction false} BytesSplit(dir: Directory, names: set<string>, some: set<string>)
    requires some <= names <= dir.Keys
    ensures Bytes(dir, names) == Bytes(dir, some) + Bytes(dir, names - some)
    decreases some
  {
    if some == {} {
      assert names - some == names;
    } else {
      var n :| n in some;
      BytesWithout(dir, some, n);
      BytesWithout(dir, names, n);
      assert (names - {n}) - (some - {n}) == names - some;
      BytesSplit(dir, names - {n}, some - {n});
    }
  }

  lemma {:induction false} TotalIsBytes(dir: Directory, names: seq<string>)
    requires Sorted(names) && forall n | n in names :: n in dir
    ensures Total(dir, names) == Bytes(dir, set n | n in names)
  {
    if names == [] {
      assert (set n | n in names) == {};
    } else {
      HeadOnce(names, names[0]);
      assert Sorted(names[1..]) && forall n | n in names[1..] :: n in names;
      TotalIsBytes(dir, names[1..]);
      BytesWithout(dir, (set n | n in names), names[0]);
      forall n ensures n in names[1..] <==> n in names && n != names[0] { HeadOnce(names, n); }
      assert (set n | n in names) - {names[0]} == (set n | n in names[1..]);
    }
  }

  /** What eviction has done, from `d` to `e`, under a limit of so many bytes. */
  ghost predicate Limited(d: Disk, e: Disk, maxBytes: int, stuck: set<string>) {
    var gone := d.directory.Keys - e.directory.Keys;
    // Files are only removed, and only batches that can be.
    && e.directory.Keys <= d.directory.Keys && (forall n | n in e.directory :: e.directory[n] == d.directory[n])
    && (forall n | n in gone :: BatchFile(n) && n !in stuck)
    && e == d.(directory := e.directory, evicted := e.evicted)
    && e.evicted == d.evicted + (map n | n in gone :: d.directory[n])
    // What is left fits, or cannot be removed.
    && (Bytes(e.directory, BatchFiles(e.directory)) <= maxBytes || BatchFiles(e.directory) <= stuck)
    // The oldest go first, and each only while the rest with it does not fit.
    && (forall g, n | g in gone && n in BatchFiles(e.directory) && n !in stuck :: Less(g, n))
    && (forall g | g in gone :: Bytes(d.directory, BatchFiles(d.directory) - OlderOf(gone, g)) > maxBytes)
  }

  function OlderOf(names: set<string>, g: string): set<string> {
    set n | n in names && Less(n, g)
  }

  lemma BatchFilesArePending(dir: Directory)
    ensures BatchFiles(dir) == Pending(dir)
  {
  }

  lemma {:induction false} VictimsInOrder(dir: Directory, names: seq<string>, total: int, maxBytes: int, stuck: set<string>)
    requires Sorted(names)
    ensures var vs := Victims(dir, names, total, maxBytes, stuck);
            && Sorted(vs)
            && (forall i | 0 <= i < |vs| :: total - Total(dir, vs[..i]) > maxBytes)
            && (forall v, m | v in vs && m in names && m !in stuck && m !in vs :: Less(v, m))
    decreases |names|
  {
    hide Size, Less;
    var vs := Victims(dir, names, total, maxBytes, stuck);
    if names != [] && total > maxBytes {
      var head, tail := names[0], names[1..];
      assert Sorted(tail);
      assert forall m | m in names :: m == head || m in tail;
      forall m | m in tail ensures Less(head, m) {
        var k :| 0 <= k < |tail| && tail[k] == m;
        assert Less(names[0], names[k + 1]);
      }
      if head in stuck {
        VictimsInOrder(dir, tail, total, maxBytes, stuck);
      } else {
        var left := total - Size(dir, head);
        VictimsInOrder(dir, tail, left, maxBytes, stuck);
        VictimsFrom(dir, tail, left, maxBytes, stuck);
        OneInFront(dir, head, Victims(dir, tail, left, maxBytes, stuck), total, maxBytes);
      }
    }
  }

  lemma OneInFront(dir: Directory, head: string, rest: seq<string>, total: int, maxBytes: int)
    requires Sorted(rest) && total > maxBytes && forall m | m in rest :: Less(head, m)
    requires forall i | 0 <= i < |rest| :: total - Size(dir, head) - Total(dir, rest[..i]) > maxBytes
    ensures Sorted([head] + rest)
    ensures forall i | 0 <= i < |[head] + rest| :: total - Total(dir, ([head] + rest)[..i]) > maxBytes
  {
    hide Size, Less;
    var vs := [head] + rest;
    forall i | 0 <= i < |vs| ensures total - Total(dir, vs[..i]) > maxBytes {
      if i > 0 { assert vs[..i][1..] == rest[..i - 1] && vs[..i][0] == head; }
    }
    forall i, j | 0 <= i < j < |vs| ensures Less(vs[i], vs[j]) {
      if i == 0 { assert vs[j] in rest; } else { assert Less(rest[i - 1], rest[j - 1]); }
    }
  }

  lemma ListingOf(dir: Directory)
    ensures Sorted(Listing(dir)) && (forall n :: n in Listing(dir) <==> n in BatchFiles(dir))
    ensures Total(dir, Listing(dir)) == Bytes(dir, BatchFiles(dir))
  {
    hide Less, Sorted, BatchFile, EndsWith, Total;
    BatchFilesArePending(dir);
    SortedNamesMeaning(Pending(dir));
    assert (set n | n in Listing(dir)) == BatchFiles(dir);
    TotalIsBytes(dir, Listing(dir));
  }

  /** The victims before one of them are those with smaller names. */
  lemma VictimsBefore(dir: Directory, vs: seq<string>, i: nat)
    requires Sorted(vs) && i < |vs| && forall n | n in vs :: n in dir
    ensures Sorted(vs[..i]) && (set n | n in vs[..i]) == OlderOf((set n | n in vs), vs[i])
    ensures Total(dir, vs[..i]) == Bytes(dir, OlderOf((set n | n in vs), vs[i]))
  {
    hide Less, Total;
    forall n | n in OlderOf((set x | x in vs), vs[i]) ensures n in vs[..i] {
      var k :| 0 <= k < |vs| && vs[k] == n;
      if k > i { LessTotal(vs[i], vs[k]); }
      LessTotal(vs[i], vs[i]);
      assert vs[..i][k] == n;
    }
    assert (set n | n in vs[..i]) == OlderOf((set n | n in vs), vs[i]);
    TotalIsBytes(dir, vs[..i]);
  }

  /** Each victim went while it and everything that was still there did not fit. */
  lemma VictimNeeded(dir: Directory, maxBytes: int, stuck: set<string>, g: string)
    requires g in VictimSet(dir, maxBytes, stuck)
    ensures Bytes(dir, BatchFiles(dir) - OlderOf(VictimSet(dir, maxBytes, stuck), g)) > maxBytes
  {
    hide Less, Victims, Total, BatchFile, Listing, Sorted;
    var names := Listing(dir);
    ListingOf(dir);
    var vs := Victims(dir, names, Total(dir, names), maxBytes, stuck);
    VictimsInOrder(dir, names, Total(dir, names), maxBytes, stuck);
    VictimsFrom(dir, names, Total(dir, names), maxBytes, stuck);
    var i :| 0 <= i < |vs| && vs[i] == g;
    var gone := set n | n in vs;
    assert forall n | n in vs :: n in BatchFiles(dir) && n in dir;
    VictimsBefore(dir, vs, i);
    BytesSplit(dir, BatchFiles(dir), OlderOf(gone, g));
  }

  lemma VictimsOlder(dir: Directory, maxBytes: int, stuck: set<string>)
    ensures forall g, n | g in VictimSet(dir, maxBytes, stuck) && n in BatchFiles(dir) && n !in stuck
                          && n !in VictimSet(dir, maxBytes, stuck) :: Less(g, n)
  {
    hide Less, Victims, Total, BatchFile, Listing, Sorted;
    ListingOf(dir);
    VictimsInOrder(dir, Listing(dir), Total(dir, Listing(dir)), maxBytes, stuck);
  }

  /** The limit counts the bytes of the batch files: afterwards they fit or what is left cannot be
      removed; the oldest go first; and none goes that would have fitted with all younger ones. */
  lemma EvictMeaning(d: Disk, maxBytes: int, stuck: set<string>)
    ensures Limited(d, Evict(d, maxBytes, stuck), maxBytes, stuck)
  {
    hide Less, VictimSet, Total, BatchFile, Listing, EndsWith, Bytes;
    var gone, e := VictimSet(d.directory, maxBytes, stuck), Evict(d, maxBytes, stuck);
    EvictionEnough(d.directory, maxBytes, stuck);
    BatchFilesArePending(d.directory);
    ListingOf(e.directory);
    assert d.directory.Keys - e.directory.Keys == gone;
    assert forall n | n in gone :: n in Pending(d.directory);
    VictimsOlder(d.directory, maxBytes, stuck);
    forall g | g in gone
      ensures Bytes(d.directory, BatchFiles(d.directory) - OlderOf(gone, g)) > maxBytes
    {
      VictimNeeded(d.directory, maxBytes, stuck, g);
    }
    assert Chosen(d.directory, gone) == (map n | n in gone :: d.directory[n]);
  }

  // ---------------------------------------------------------------- the operations

  /** A batch is published under the name of its time and its random bytes, with the size that was
      written, and the limit is enforced with it. */
  lemma PublishMeaning(d: Disk, maxBytes: int, records: seq<Log>, io: WriteIO)
    ensures io.WriteFailed? ==> Publish(d, maxBytes, records, io) == d
    ensures io.WriteDone? && InRange(io.now) ==>
              exists name ::
                && BatchName(name, io.now, io.random)
                && Limited(d.(directory := d.directory[name := Batch(records, io.size)],
                              published := d.published + [Publication(name, Batch(records, io.size))]),
                           Publish(d, maxBytes, records, io), maxBytes, io.stuck)
  {
    hide Evict, Limited, BatchName, NewBatchName;
    if io.WriteDone? && InRange(io.now) {
      var name := NewBatchName(io.now, io.random);
      NameMeaning(io.now, io.random);
      EvictMeaning(d.(directory := d.directory[name := Batch(records, io.size)],
                      published := d.published + [Publication(name, Batch(records, io.size))]), maxBytes, io.stuck);
    }
  }

  lemma {:induction false} FirstMeaning(names: seq<string>, stuck: set<string>)
    requires Sorted(names) && "" !in names
    ensures var n := FirstClaimable(names, stuck);
            && (n == "" <==> forall m | m in names :: m in stuck)
            && (n != "" ==> n in names && n !in stuck && forall m | m in names && m !in stuck :: m == n || Less(n, m))
  {
    hide Less;
    if names != [] {
      assert Sorted(names[1..]) && forall m | m in names :: m == names[0] || m in names[1..];
      assert names[0] in names && forall m | m in names[1..] :: m in names;
      forall m | m in names[1..] ensures Less(names[0], m) {
        var k :| 0 <= k < |names[1..]| && names[1..][k] == m;
        assert Less(names[0], names[k + 1]);
      }
      FirstMeaning(names[1..], stuck);
    }
  }

  /** What is claimed is a claim file in the directory. */
  lemma ClaimedFile(d: Disk, stuck: set<string>)
    ensures var (e, claimed) := ClaimOldest(d, stuck);
            claimed != "" ==> ClaimFile(claimed) && claimed in e.directory
  {
    hide ClaimOldest, BatchFile;
    var n := ClaimMeaning(d, stuck);
    var (e, claimed) := ClaimOldest(d, stuck);
    if claimed != "" {
      ClaimFileOf(n);
    }
  }

  lemma ClaimFileOf(n: string)
    requires BatchFile(n)
    ensures ClaimFile(n + ".sending")
  {
    var c := n + ".sending";
    assert c[|c| - 16..] == n[|n| - 8..] + ".sending";
  }

  /** The oldest batch file that can be renamed gets ".sending" behind its name; no file is claimed
      exactly when none can be renamed. */
  lemma ClaimMeaning(d: Disk, stuck: set<string>) returns (n: string)
    ensures var (e, claimed) := ClaimOldest(d, stuck);
            if claimed == "" then
              e == d && BatchFiles(d.directory) <= stuck
            else
              && n in BatchFiles(d.directory) && n !in stuck && claimed == n + ".sending"
              && (forall m | m in BatchFiles(d.directory) && m !in stuck :: m == n || Less(n, m))
              && e == d.(directory := (d.directory - {n})[claimed := d.directory[n]])
  {
    hide Less, Listing, Sorted, FirstClaimable;
    ListingOf(d.directory);
    n := FirstClaimable(Listing(d.directory), stuck);
    assert "" !in Listing(d.directory);
    FirstMeaning(Listing(d.directory), stuck);
  }

  predicate ClaimFile(c: string) {
    |c| >= 16 && c[|c| - 16..] == ".json.gz.sending"
  }

  lemma ClaimFileMeaning(c: string)
    ensures EndsWith(c, CLAIMED) <==> ClaimFile(c)
    ensures ClaimFile(c) ==> WithoutSuffix(c, CLAIM) == c[..|c| - 8] && BatchFile(c[..|c| - 8])
  {
    assert CLAIMED == ".json.gz.sending";
    if ClaimFile(c) {
      SuffixParts();
      var n := c[..|c| - 8];
      assert c[|c| - 8..] == c[|c| - 16..][8..];
      assert n[|n| - 8..] == c[|c| - 16..][..8];
    }
  }

  lemma SuffixParts()
    ensures ".json.gz.sending"[8..] == ".sending" && ".json.gz.sending"[..8] == ".json.gz"
  {
  }

  /** A claim that is given back loses the ".sending", and the limit is enforced; a claim that is
      gone already counts as given back. */
  lemma ReturnMeaning(d: Disk, maxBytes: int, c: string, renameOk: bool, stuck: set<string>)
    ensures var (e, ok) := Return(d, maxBytes, c, renameOk, stuck);
            && (ok <==> ClaimFile(c) && (c in d.directory ==> renameOk))
            && (!ok ==> e == d)
            && (ok && c !in d.directory ==> Limited(d, e, maxBytes, stuck))
            && (ok && c in d.directory ==>
                  Limited(d.(directory := (d.directory - {c})[c[..|c| - 8] := d.directory[c]]), e, maxBytes, stuck))
  {
    hide Evict, Limited, EndsWith, WithoutSuffix, ClaimFile;
    ClaimFileMeaning(c);
    EvictMeaning(d, maxBytes, stuck);
    if ClaimFile(c) && c in d.directory {
      assert |c| >= 16 by { LongEnough(c); }
      EvictMeaning(d.(directory := (d.directory - {c})[c[..|c| - 8] := d.directory[c]]), maxBytes, stuck);
    }
  }

  lemma LongEnough(c: string)
    requires ClaimFile(c)
    ensures |c| >= 16
  {
  }

  /** A claim that is delivered or rejected leaves the directory under its own name. */
  lemma GoneMeaning(d: Disk, c: string, fileOk: bool)
    requires ClaimFile(c)
    ensures c !in d.directory ==> DeleteClaim(d, c, fileOk) == (d, true) && MoveToFailed(d, c, fileOk) == (d, false)
    ensures !fileOk && c in d.directory ==> DeleteClaim(d, c, fileOk) == (d, false) && MoveToFailed(d, c, fileOk) == (d, false)
    ensures fileOk && c in d.directory ==>
              && DeleteClaim(d, c, fileOk)
              == (d.(directory := d.directory - {c}, delivered := d.delivered[c[..|c| - 8] := d.directory[c]]), true)
              && MoveToFailed(d, c, fileOk)
              == (d.(directory := d.directory - {c}, failed := d.failed[c[..|c| - 8] := d.directory[c]]), true)
  {
    ClaimFileMeaning(c);
    assert EndsWith(c[..|c| - 8], SUFFIX);
    hide EndsWith, WithoutSuffix;
  }

  // ---------------------------------------------------------------- recovery

  /** A recovered claim gets its own name, or one marked with the time when that is taken. */
  lemma RecoveredMeaning(dir: Directory, c: string, nanos: nat)
    requires ClaimFile(c)
    ensures var name := RecoveredName(dir, c, nanos);
            && (c[..|c| - 8] !in dir ==> name == c[..|c| - 8])
            && (c[..|c| - 8] in dir ==>
                  exists t :: Reads(t, nanos) && name == c[..|c| - 16] + "-recovered-" + t + ".json.gz")
            && BatchFile(name) && !ClaimFile(name)
  {
    ClaimFileMeaning(c);
    var n := c[..|c| - 8];
    assert EndsWith(n, SUFFIX) && n[..|n| - 8] == c[..|c| - 16];
    DecimalReads(nanos);
    hide EndsWith, Decimal, Reads;
    assert WithoutSuffix(n, SUFFIX) == n[..|n| - 8];
    var name := RecoveredName(dir, c, nanos);
    BatchFileEnds(c[..|c| - 16] + "-recovered-" + Decimal(nanos));
    BatchNotClaim(name);
  }

  lemma BatchFileEnds(stem: string)
    ensures BatchFile(stem + ".json.gz")
  {
  }

  lemma BatchNotClaim(n: string)
    requires BatchFile(n)
    ensures !ClaimFile(n)
  {
    assert n[|n| - 1] == ".json.gz"[7];
  }

  lemma {:induction false} RecoverAllLeavesNone(d: Disk, claims: seq<string>, stuck: set<string>, nanos: nat)
    requires forall c | c in claims :: ClaimFile(c)
    requires forall n | n in d.directory && ClaimFile(n) :: n in claims
    requires RecoverAll(d, claims, stuck, nanos).1
    ensures forall n | n in RecoverAll(d, claims, stuck, nanos).0.directory :: !ClaimFile(n)
    decreases |claims|
  {
    hide RecoveredName, ClaimFile;
    if claims != [] {
      assert claims[0] in claims && forall c | c in claims[1..] :: c in claims;
      RecoveredMeaning(d.directory, claims[0], nanos);
      var e := d.(directory := Rename(d.directory, claims[0], RecoveredName(d.directory, claims[0], nanos)));
      forall n | n in e.directory && ClaimFile(n) ensures n in claims[1..] {
        assert n in claims && n != claims[0];
      }
      RecoverAllLeavesNone(e, claims[1..], stuck, nanos);
    }
  }

  /** After a recovery that succeeds no file is claimed. */
  lemma RecoverLeavesNone(d: Disk, stuck: set<string>, nanos: nat)
    requires RecoverClaims(d, stuck, nanos).1
    ensures forall n | n in RecoverClaims(d, stuck, nanos).0.directory :: !ClaimFile(n)
  {
    hide RecoverAll, EndsWith, ClaimFile;
    forall n ensures EndsWith(n, CLAIMED) <==> ClaimFile(n) { ClaimFileMeaning(n); }
    SortedNamesMeaning(set n | n in d.directory && EndsWith(n, CLAIMED));
    RecoverAllLeavesNone(d, Claims(d.directory), stuck, nanos);
  }
}
