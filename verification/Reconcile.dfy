/** What reconciling the index with the file system achieves. */
module Reconcile {
  import opened Types
  import opened ByteStrings
  import opened FileTree
  import opened ListingIndex

  predicate ValidBucket(name: bytes) {
    ValidName(name) && name[0] != DOT && IsUtf8(name)
  }

  /** On canonical keys `exists()` tells the truth about the tree. */
  ghost predicate Faithful(probe: Probe, root: seq<Entry>) {
    forall b, path :: ValidBucket(b) && ValidPath(path) ==>
      (probe(b, Join(path)) <==> Lookup(root, [b] + path).Some?)
  }

  /** The entry `e` is for the canonical path `path` in bucket `b`. */
  ghost predicate IsEntryOf(e: bytes, b: bytes, path: seq<bytes>) {
    ValidBucket(b) && ValidPath(path) && e == Encode(b, Join(path))
  }

  ghost predicate NamesFile(root: seq<Entry>, e: bytes) {
    exists b, path :: IsEntryOf(e, b, path) && Lookup(root, [b] + path) == Some(File)
  }

  ghost predicate NamesDirectory(root: seq<Entry>, e: bytes) {
    exists b, path :: IsEntryOf(e, b, path) && Lookup(root, [b] + path).Some? && Lookup(root, [b] + path).value.Dir?
  }

  ghost predicate AllCanonical(entries: set<bytes>) {
    forall e :: e in entries ==> exists b, path :: IsEntryOf(e, b, path)
  }

  lemma BeginsUtf8Extends(a: bytes, b: bytes)
    requires a != [] && BeginsUtf8(a)
    ensures BeginsUtf8(a + b)
  {
    assert forall i :: 0 <= i < |a| ==> (a + b)[i] == a[i];
  }

  lemma AppendAfter(a: bytes, b: bytes, n: nat)
    requires n <= |a|
    ensures (a + b)[n..] == a[n..] + b
  {
  }

  lemma {:induction false} Utf8Concat(a: bytes, b: bytes)
    requires IsUtf8(a) && IsUtf8(b)
    ensures IsUtf8(a + b)
    decreases |a|
  {
    if a == [] {
      assert a + b == b;
    } else {
      var n := Utf8Width(a[0]);
      Utf8Concat(a[n..], b);
      BeginsUtf8Extends(a, b);
      AppendAfter(a, b, n);
    }
  }

  lemma {:induction false} JoinUtf8(path: seq<bytes>)
    requires ValidPath(path)
    ensures IsUtf8(Join(path))
  {
    if |path| > 1 {
      JoinUtf8(path[1..]);
      assert IsUtf8([SLASH]) by { assert [SLASH][1..] == []; }
      Utf8Concat(path[0], [SLASH]);
      Utf8Concat(path[0] + [SLASH], Join(path[1..]));
    }
  }

  lemma DecodeCanonical(e: bytes, b: bytes, path: seq<bytes>)
    requires IsEntryOf(e, b, path)
    ensures Decode(e) == Some((b, Join(path)))
  {
    JoinUtf8(path);
    DecodeEncode(b, Join(path));
  }

  /** Bucket and path of an entry are unique. */
  lemma EntryOfUnique(e: bytes, b1: bytes, p1: seq<bytes>, b2: bytes, p2: seq<bytes>)
    requires IsEntryOf(e, b1, p1) && IsEntryOf(e, b2, p2)
    ensures b1 == b2 && p1 == p2
  {
    EncodeInjective(b1, Join(p1), b2, Join(p2));
    JoinInjective(p1, p2);
  }

  lemma LookupInBucket(root: seq<Entry>, i: nat, path: seq<bytes>)
    requires ValidEntries(root) && i < |root| && root[i].node.Dir? && path != []
    ensures Lookup(root, [root[i].name] + path) == Lookup(root[i].node.entries, path)
  {
    LookupEntry(root, [root[i].name] + path, i);
    assert ([root[i].name] + path)[1..] == path;
  }

  lemma WalkedNamesFile(root: seq<Entry>, e: bytes)
    requires ValidEntries(root) && e in Walked(root)
    ensures NamesFile(root, e)
  {
    WalkedElements(root, e);
    var i :| 0 <= i < |root| && e in BucketEntries(root[i]);
    var k :| k in FileKeys(root[i].node.entries) && e == Encode(root[i].name, JoinKey([], k));
    var path := KeyHasPath(root[i].node.entries, k);
    LookupInBucket(root, i, path);
    assert IsEntryOf(e, root[i].name, path);
  }

  lemma FileIsWalked(root: seq<Entry>, e: bytes)
    requires ValidEntries(root) && NamesFile(root, e)
    ensures e in Walked(root)
  {
    var b, path :| IsEntryOf(e, b, path) && Lookup(root, [b] + path) == Some(File);
    if forall i :: 0 <= i < |root| ==> root[i].name != b {
      LookupMissing(root, [b] + path);
    } else {
      var i :| 0 <= i < |root| && root[i].name == b;
      LookupEntry(root, [b] + path, i);
      LookupInBucket(root, i, path);
      PathHasKey(root[i].node.entries, path);
      WalkedElements(root, e);
      assert e == Encode(b, JoinKey([], Join(path)));
      assert e in BucketEntries(root[i]);
    }
  }

  /** The walk visits exactly the files of the buckets, whatever the shape of the tree. */
  lemma WalkedIsFiles(root: seq<Entry>, e: bytes)
    requires ValidEntries(root)
    ensures e in Walked(root) <==> NamesFile(root, e)
  {
    if e in Walked(root) {
      WalkedNamesFile(root, e);
    }
    if NamesFile(root, e) {
      FileIsWalked(root, e);
    }
  }

  lemma KeepCanonical(e: bytes, b: bytes, path: seq<bytes>, root: seq<Entry>, probe: Probe)
    requires IsEntryOf(e, b, path) && Faithful(probe, root)
    ensures Keep(e, probe) <==> Lookup(root, [b] + path).Some?
  {
    DecodeCanonical(e, b, path);
  }

  lemma WalkedIsKept(root: seq<Entry>, probe: Probe, e: bytes)
    requires ValidEntries(root) && Faithful(probe, root) && e in Walked(root)
    ensures Keep(e, probe)
  {
    WalkedNamesFile(root, e);
    var b, path :| IsEntryOf(e, b, path) && Lookup(root, [b] + path) == Some(File);
    KeepCanonical(e, b, path, root, probe);
  }

  lemma NamesFileAt(root: seq<Entry>, e: bytes, b: bytes, path: seq<bytes>)
    requires IsEntryOf(e, b, path)
    ensures NamesFile(root, e) <==> Lookup(root, [b] + path) == Some(File)
  {
    if NamesFile(root, e) {
      var b2, p2 :| IsEntryOf(e, b2, p2) && Lookup(root, [b2] + p2) == Some(File);
      EntryOfUnique(e, b, path, b2, p2);
    }
  }

  lemma NamesDirectoryAt(root: seq<Entry>, e: bytes, b: bytes, path: seq<bytes>)
    requires IsEntryOf(e, b, path)
    ensures NamesDirectory(root, e) <==> Lookup(root, [b] + path).Some? && Lookup(root, [b] + path).value.Dir?
  {
    if NamesDirectory(root, e) {
      var b2, p2 :| IsEntryOf(e, b2, p2) && Lookup(root, [b2] + p2).Some? && Lookup(root, [b2] + p2).value.Dir?;
      EntryOfUnique(e, b, path, b2, p2);
    }
  }

  /** An old entry survives exactly when its path is a file or a directory. */
  lemma OldEntrySurvives(e: bytes, root: seq<Entry>, probe: Probe)
    requires ValidEntries(root) && Faithful(probe, root)
    requires exists b, path :: IsEntryOf(e, b, path)
    ensures Keep(e, probe) <==> e in Walked(root) || NamesDirectory(root, e)
  {
    var b, path :| IsEntryOf(e, b, path);
    KeepCanonical(e, b, path, root, probe);
    WalkedIsFiles(root, e);
    NamesFileAt(root, e, b, path);
    NamesDirectoryAt(root, e, b, path);
  }

  /** An entry that is no bucket and key, for want of a zero byte or of valid text, stays whatever is on disk. */
  lemma ForeignEntriesStay(before: set<bytes>, root: seq<Entry>, probe: Probe, e: bytes, n: nat)
    requires e in before && n <= |e| && 0 !in e[..n]
    requires n == |e| || (e[n] == 0 && (!IsUtf8(e[..n]) || !IsUtf8(e[n + 1..])))
    ensures e in Reconciled(before, root, probe)
  {
    FirstZeroBound(e);
    forall i | 0 <= i < n ensures e[i] != 0 {
      assert e[..n][i] == e[i];
    }
  }

  /**
   * From any canonical index, however wrong, reconciling leaves the files of the tree and the old
   * entries that name a directory: agreement is complete exactly when there are none of those.
   */
  lemma ReconcileRestoresAgreement(before: set<bytes>, root: seq<Entry>, probe: Probe)
    requires ValidEntries(root) && Faithful(probe, root) && AllCanonical(before)
    ensures Walked(root) <= Reconciled(before, root, probe)
    ensures forall e :: e in Reconciled(before, root, probe) - Walked(root) <==> e in before && NamesDirectory(root, e)
    ensures Reconciled(before, root, probe) == Walked(root) <==> forall e :: e in before ==> !NamesDirectory(root, e)
  {
    forall e | e in Walked(root) ensures Keep(e, probe) {
      WalkedIsKept(root, probe, e);
    }
    forall e | e in before ensures Keep(e, probe) <==> e in Walked(root) || NamesDirectory(root, e) {
      OldEntrySurvives(e, root, probe);
    }
    forall e | e in Walked(root) ensures !NamesDirectory(root, e) {
      FileIsNoDirectory(root, e);
    }
  }

  lemma FileIsNoDirectory(root: seq<Entry>, e: bytes)
    requires ValidEntries(root) && e in Walked(root)
    ensures !NamesDirectory(root, e)
  {
    WalkedNamesFile(root, e);
    var b, path :| IsEntryOf(e, b, path) && Lookup(root, [b] + path) == Some(File);
    NamesDirectoryAt(root, e, b, path);
  }

  /** A second run changes nothing and reports zeros. */
  lemma ReconcileIsIdempotent(before: set<bytes>, root: seq<Entry>, probe: Probe)
    requires ValidEntries(root) && Faithful(probe, root)
    ensures var once := Reconciled(before, root, probe);
            && Reconciled(once, root, probe) == once
            && |Walked(root) - once| == 0
            && |Stale(once + Walked(root), probe)| == 0
  {
    var once := Reconciled(before, root, probe);
    forall e | e in Walked(root) ensures Keep(e, probe) {
      WalkedIsKept(root, probe, e);
    }
    assert Walked(root) - once == {};
    assert Stale(once + Walked(root), probe) == {};
  }
}
