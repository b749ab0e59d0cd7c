/**
 What the disk queue holds, how it is listed, and how the oldest batches are
 evicted when the queue outgrows its limit. A file is identified with its base
 name; a successful rename or removal is one atomic durable step.
 */
module Eviction {
  import opened Names
  import opened Text
  import opened Schema

  datatype Batch = Batch(records: seq<Log>, size: nat)
  datatype Publication = Publication(name: string, batch: Batch)

  type Directory = map<string, Batch>

  /** The buffer directory and its failed sub-directory, with the history of what was
      published, delivered and evicted. */
  datatype Disk = Disk(
    directory: Directory, failed: Directory,
    published: seq<Publication>, delivered: Directory, evicted: Directory)

  const CLAIMED := SUFFIX + CLAIM

  // ---------------------------------------------------------------- listing and eviction

  function Pending(directory: Directory): set<string> {
    set n | n in directory && EndsWith(n, SUFFIX)
  }

  function Listing(directory: Directory): seq<string> {
    SortedNames(Pending(directory))
  }

  function Size(directory: Directory, n: string): nat {
    if n in directory then directory[n].size else 0
  }

  function Total(directory: Directory, names: seq<string>): nat {
    if names == [] then 0 else Size(directory, names[0]) + Total(directory, names[1..])
  }

  /** The names removed when `total` bytes are pending; a name in `stuck` cannot be removed. */
  function Victims(directory: Directory, names: seq<string>, total: int, maxBytes: int, stuck: set<string>): seq<string>
    decreases |names|
  {
    if names == [] || total <= maxBytes then []
    else if names[0] in stuck then Victims(directory, names[1..], total, maxBytes, stuck)
    else [names[0]] + Victims(directory, names[1..], total - Size(directory, names[0]), maxBytes, stuck)
  }

  function VictimSet(directory: Directory, maxBytes: int, stuck: set<string>): set<string> {
    var names := Listing(directory);
    set n | n in Victims(directory, names, Total(directory, names), maxBytes, stuck)
  }

  function Evict(d: Disk, maxBytes: int, stuck: set<string>): Disk {
    var gone := VictimSet(d.directory, maxBytes, stuck);
    d.(directory := d.directory - gone, evicted := d.evicted + Chosen(d.directory, gone))
  }

  function Chosen(directory: Directory, gone: set<string>): Directory {
    map n | n in gone && n in directory :: directory[n]
  }

  lemma OneMore(directory: Directory, before: Directory, gone: set<string>, n: string)
    requires n in directory
    ensures (before + Chosen(directory, gone))[n := directory[n]] == before + Chosen(directory, gone + {n})
    ensures (directory - gone) - {n} == directory - (gone + {n})
  {
  }

  lemma {:induction false} VictimsFrom(directory: Directory, names: seq<string>, total: int, maxBytes: int, stuck: set<string>)
    ensures forall n | n in Victims(directory, names, total, maxBytes, stuck) :: n in names && n !in stuck
    decreases |names|
  {
    if names != [] && total > maxBytes {
      VictimsFrom(directory, names[1..], if names[0] in stuck then total else total - Size(directory, names[0]), maxBytes, stuck);
    }
  }

  function Without(names: seq<string>, gone: set<string>): seq<string> {
    if names == [] then [] else (if names[0] in gone then [] else [names[0]]) + Without(names[1..], gone)
  }

  lemma {:induction false} WithoutMeaning(names: seq<string>, gone: set<string>)
    requires Sorted(names)
    ensures Sorted(Without(names, gone))
    ensures forall n :: n in Without(names, gone) <==> n in names && n !in gone
  {
    if names != [] {
      var rest := Without(names[1..], gone);
      assert Sorted(names[1..]) && names == [names[0]] + names[1..];
      WithoutMeaning(names[1..], gone);
      forall n | n in rest ensures Less(names[0], n) {
        var k :| 0 <= k < |names[1..]| && names[1..][k] == n;
        assert Less(names[0], names[k + 1]);
      }
      var all := Without(names, gone);
      forall i, j | 0 <= i < j < |all| ensures Less(all[i], all[j]) {
        if names[0] !in gone && i == 0 {
          assert all[j] == rest[j - 1] && rest[j - 1] in rest;
        } else if names[0] !in gone {
          assert all[i] == rest[i - 1] && all[j] == rest[j - 1];
        }
      }
    }
  }

  /** A sorted listing is determined by its elements. */
  lemma {:induction false} SortedUnique(a: seq<string>, b: seq<string>)
    requires Sorted(a) && Sorted(b) && forall n :: n in a <==> n in b
    ensures a == b
  {
    if a == [] {
      assert forall i | 0 <= i < |b| :: b[i] in b;
    } else {
      assert a[0] in a && b != [] && b[0] in b;
      var i :| 0 <= i < |b| && b[i] == a[0];
      var j :| 0 <= j < |a| && a[j] == b[0];
      LessTotal(a[0], b[0]);
      assert a[0] == b[0];
      assert a == [a[0]] + a[1..] && b == [b[0]] + b[1..];
      forall n ensures n in a[1..] <==> n in b[1..] {
        HeadOnce(a, n);
        HeadOnce(b, n);
      }
      SortedUnique(a[1..], b[1..]);
    }
  }

  lemma HeadOnce(a: seq<string>, n: string)
    requires a != [] && Sorted(a)
    ensures n in a[1..] <==> n in a && n != a[0]
  {
    if n in a[1..] {
      var k :| 0 <= k < |a[1..]| && a[1..][k] == n;
      assert Less(a[0], a[k + 1]);
      LessTotal(a[0], a[0]);
    }
    assert a == [a[0]] + a[1..];
  }

  lemma ListingAfter(directory: Directory, gone: set<string>)
    ensures Listing(directory - gone) == Without(Listing(directory), gone)
  {
    SortedNamesMeaning(Pending(directory));
    SortedNamesMeaning(Pending(directory - gone));
    WithoutMeaning(Listing(directory), gone);
    SortedUnique(Listing(directory - gone), Without(Listing(directory), gone));
  }

  /** What a list of victims leaves of a listing either fits beside `extra`, or cannot be removed. */
  predicate Suffices(directory: Directory, names: seq<string>, vs: seq<string>, extra: nat, maxBytes: int, stuck: set<string>) {
    var rest := Without(names, set n | n in vs);
    Total(directory, rest) + extra <= maxBytes || forall n | n in rest :: n in stuck
  }

  lemma SufficesWithStuck(directory: Directory, names: seq<string>, vs: seq<string>, extra: nat, maxBytes: int, stuck: set<string>)
    requires names != [] && names[0] in stuck && names[0] !in vs
    requires Suffices(directory, names[1..], vs, extra + Size(directory, names[0]), maxBytes, stuck)
    ensures Suffices(directory, names, vs, extra, maxBytes, stuck)
  {
    hide Size;
    var rest := Without(names[1..], set n | n in vs);
    assert Without(names, set n | n in vs) == [names[0]] + rest;
    assert ([names[0]] + rest)[1..] == rest;
  }

  lemma SufficesWithVictim(directory: Directory, names: seq<string>, vs: seq<string>, extra: nat, maxBytes: int, stuck: set<string>)
    requires names != [] && names[0] !in names[1..] && Suffices(directory, names[1..], vs, extra, maxBytes, stuck)
    ensures Suffices(directory, names, [names[0]] + vs, extra, maxBytes, stuck)
  {
    hide Size, Total;
    var head, tail := names[0], names[1..];
    WithoutHead(tail, head, set n | n in vs, set n | n in [head] + vs);
    assert Without(names, set n | n in [head] + vs) == [] + Without(tail, set n | n in [head] + vs);
    assert [] + Without(tail, set n | n in vs) == Without(tail, set n | n in vs);
  }

  /** The first name is a victim unless it is stuck, and then its bytes count as passed over. */
  lemma VictimsHead(directory: Directory, names: seq<string>, extra: nat, maxBytes: int, stuck: set<string>)
    requires names != [] && Total(directory, names) + extra > maxBytes
    ensures var head, tail := names[0], names[1..];
            var more := if head in stuck then extra + Size(directory, head) else extra;
            var vs := Victims(directory, tail, Total(directory, tail) + more, maxBytes, stuck);
            Victims(directory, names, Total(directory, names) + extra, maxBytes, stuck)
            == if head in stuck then vs else [head] + vs
  {
    hide Size;
  }

  /** What remains fits, or is all unremovable; `extra` is what was passed over before. */
  lemma {:induction false} EvictionSuffices(directory: Directory, names: seq<string>, extra: nat, maxBytes: int, stuck: set<string>)
    requires Sorted(names)
    ensures Suffices(directory, names, Victims(directory, names, Total(directory, names) + extra, maxBytes, stuck), extra, maxBytes, stuck)
    decreases |names|
  {
    hide Size, Less;
    if names != [] && Total(directory, names) + extra <= maxBytes {
      WithoutNone(names);
    } else if names != [] {
      var head, tail := names[0], names[1..];
      var more := if head in stuck then extra + Size(directory, head) else extra;
      var vs := Victims(directory, tail, Total(directory, tail) + more, maxBytes, stuck);
      assert Sorted(tail);
      HeadOnce(names, head);
      VictimsHead(directory, names, extra, maxBytes, stuck);
      hide Sorted, Suffices, Without, Victims, Total;
      EvictionSuffices(directory, tail, more, maxBytes, stuck);
      VictimsFrom(directory, tail, Total(directory, tail) + more, maxBytes, stuck);
      if head in stuck {
        SufficesWithStuck(directory, names, vs, extra, maxBytes, stuck);
      } else {
        SufficesWithVictim(directory, names, vs, extra, maxBytes, stuck);
      }
    }
  }

  lemma {:induction false} WithoutNone(names: seq<string>)
    ensures Without(names, set n | n in []) == names
  {
    if names != [] { WithoutNone(names[1..]); }
  }

  lemma {:induction false} WithoutHead(names: seq<string>, head: string, gone: set<string>, more: set<string>)
    requires head !in names && more == gone + {head}
    ensures Without(names, more) == Without(names, gone)
  {
    if names != [] {
      assert names == [names[0]] + names[1..];
      WithoutHead(names[1..], head, gone, more);
    }
  }

  /** With every removal succeeding, the victims are the shortest sufficient prefix. */
  lemma {:induction false} VictimsArePrefix(directory: Directory, names: seq<string>, maxBytes: int) returns (k: nat)
    ensures k <= |names| && Victims(directory, names, Total(directory, names), maxBytes, {}) == names[..k]
    ensures Total(directory, names[k..]) <= maxBytes || k == |names|
    ensures forall j | 0 <= j < k :: Total(directory, names[j..]) > maxBytes
    decreases |names|
  {
    hide Size, Total, Victims;
    assert names[0..] == names;
    if names == [] || Total(directory, names) <= maxBytes {
      k := 0;
      NoVictim(directory, names, maxBytes);
    } else {
      var tail := names[1..];
      var m := VictimsArePrefix(directory, tail, maxBytes);
      k := m + 1;
      OneVictim(directory, names, maxBytes);
      assert names[..k] == [names[0]] + tail[..m] && names[k..] == tail[m..];
      forall j | 0 <= j < k ensures Total(directory, names[j..]) > maxBytes {
        if j > 0 { assert names[j..] == tail[j - 1..]; }
      }
    }
  }

  lemma NoVictim(directory: Directory, names: seq<string>, maxBytes: int)
    requires names == [] || Total(directory, names) <= maxBytes
    ensures Victims(directory, names, Total(directory, names), maxBytes, {}) == []
  {
  }

  lemma OneVictim(directory: Directory, names: seq<string>, maxBytes: int)
    requires names != [] && Total(directory, names) > maxBytes
    ensures Victims(directory, names, Total(directory, names), maxBytes, {})
         == [names[0]] + Victims(directory, names[1..], Total(directory, names[1..]), maxBytes, {})
  {
    hide Size;
  }

  /** After an eviction the queue fits, or every pending batch left is one that could not be
      removed; and a claimed batch is never a victim. */
  lemma EvictionEnough(directory: Directory, maxBytes: int, stuck: set<string>)
    ensures var gone := VictimSet(directory, maxBytes, stuck);
            var rest := Listing(directory - gone);
            && (forall n | n in gone :: n in directory && EndsWith(n, SUFFIX) && !EndsWith(n, CLAIM) && n !in stuck)
            && (Total(directory - gone, rest) <= maxBytes || forall n | n in rest :: n in stuck)
  {
    hide Victims, Total, Size, Less, Sorted, EndsWith, Suffices;
    var names := Listing(directory);
    var gone := VictimSet(directory, maxBytes, stuck);
    VictimsPending(directory, maxBytes, stuck);
    EvictionLeaves(directory, maxBytes, stuck);
    TotalKept(directory, gone, Listing(directory - gone));
  }

  lemma VictimsPending(directory: Directory, maxBytes: int, stuck: set<string>)
    ensures forall n | n in VictimSet(directory, maxBytes, stuck) ::
              n in directory && EndsWith(n, SUFFIX) && !EndsWith(n, CLAIM) && n !in stuck
  {
    hide Victims, Total, Size, Less, Sorted, EndsWith;
    var names := Listing(directory);
    SortedNamesMeaning(Pending(directory));
    VictimsFrom(directory, names, Total(directory, names), maxBytes, stuck);
    forall n | n in VictimSet(directory, maxBytes, stuck) ensures !EndsWith(n, CLAIM) { SuffixesDiffer(n); }
  }

  lemma EvictionLeaves(directory: Directory, maxBytes: int, stuck: set<string>)
    ensures var gone := VictimSet(directory, maxBytes, stuck);
            var rest := Listing(directory - gone);
            && (forall n | n in rest :: n !in gone)
            && (Total(directory, rest) <= maxBytes || forall n | n in rest :: n in stuck)
  {
    hide Victims, Total, Size, Less, EndsWith;
    var names := Listing(directory);
    var gone := VictimSet(directory, maxBytes, stuck);
    SortedNamesMeaning(Pending(directory));
    ListingAfter(directory, gone);
    EvictionSuffices(directory, names, 0, maxBytes, stuck);
    WithoutMeaning(names, gone);
  }

  /** With every removal succeeding, eviction is minimal and oldest first. */
  lemma EvictionMinimal(directory: Directory, maxBytes: int) returns (k: nat)
    ensures var gone := VictimSet(directory, maxBytes, {});
            var names := Listing(directory);
            && k <= |names| && gone == (set n | n in names[..k]) && Listing(directory - gone) == names[k..]
            && (Total(directory, names[k..]) <= maxBytes || k == |names|)
            && forall j | 0 <= j < k :: Total(directory, names[j..]) > maxBytes
  {
    hide Victims, Total, Size, Less;
    var names := Listing(directory);
    SortedNamesMeaning(Pending(directory));
    k := VictimsArePrefix(directory, names, maxBytes);
    ListingAfter(directory, VictimSet(directory, maxBytes, {}));
    WithoutPrefix(names, k);
  }

  lemma SuffixesDiffer(n: string)
    requires EndsWith(n, SUFFIX)
    ensures !EndsWith(n, CLAIM)
  {
    var last := n[|n| - 1];
    assert last == SUFFIX[|SUFFIX| - 1] == 'z';
  }

  lemma {:induction false} TotalKept(directory: Directory, gone: set<string>, names: seq<string>)
    requires forall n | n in names :: n !in gone
    ensures Total(directory - gone, names) == Total(directory, names)
  {
    if names != [] {
      assert names[0] in names;
      TotalKept(directory, gone, names[1..]);
    }
  }

  lemma PrefixOrRest(names: seq<string>, k: nat, n: string)
    requires Sorted(names) && k <= |names|
    ensures n in names[k..] <==> n in names && n !in names[..k]
  {
    hide Less;
    assert names == names[..k] + names[k..];
    if n in names[k..] && n in names[..k] {
      var i :| 0 <= i < k && names[i] == n;
      var j :| k <= j < |names| && names[j] == n;
      LessTotal(names[i], names[j]);
    }
  }

  lemma SortedRest(names: seq<string>, k: nat)
    requires Sorted(names) && k <= |names|
    ensures Sorted(names[k..])
  {
    hide Less;
    forall i, j | 0 <= i < j < |names[k..]| ensures Less(names[k..][i], names[k..][j]) {
      assert Less(names[k + i], names[k + j]);
    }
  }

  lemma WithoutPrefix(names: seq<string>, k: nat)
    requires Sorted(names) && k <= |names|
    ensures Without(names, set n | n in names[..k]) == names[k..]
  {
    var gone := set n | n in names[..k];
    WithoutMeaning(names, gone);
    SortedRest(names, k);
    hide Sorted, Without;
    forall n ensures n in names[k..] <==> n in Without(names, gone) {
      PrefixOrRest(names, k, n);
    }
    SortedUnique(Without(names, gone), names[k..]);
  }
}
