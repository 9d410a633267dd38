/**
 * The listing index: byte strings `bucket NUL key` in a sorted map.
 *
 * The fast form of a listing is a range between two byte strings; the simple form
 * filters a bucket's keys by prefix and cursor and sorts them. They agree.
 */
module ListingIndex {
  import opened Types
  import opened ByteStrings
  import opened FileTree

  // ---- Range bounds ----

  function Encode(bucket: bytes, key: bytes): bytes {
    bucket + [0] + key
  }

  /** The last byte below 0xFF incremented, the 0xFF bytes after it dropped. */
  function Bump(v: bytes): bytes {
    if v == [] then []
    else if v[|v| - 1] < 255 then v[..|v| - 1] + [v[|v| - 1] + 1]
    else Bump(v[..|v| - 1])
  }

  predicate Bumpable(v: bytes) {
    exists i :: 0 <= i < |v| && v[i] < 255
  }

  predicate Between(lo: bytes, k: bytes, hi: bytes) {
    !Less(k, lo) && Less(k, hi)
  }

  lemma LastByteBound(init: bytes, b: byte, k: bytes)
    requires b < 255
    ensures Between(init + [b], k, init + [b + 1]) <==> init + [b] <= k
  {
    if init <= k {
      SplitAtPrefix(init, k);
      var rest := k[|init|..];
      LessAfterPrefix(init, rest, [b]);
      LessAfterPrefix(init, rest, [b + 1]);
      assert init + [b] <= k <==> rest != [] && rest[0] == b;
    } else {
      DivergesTogether(init, [b], [b + 1], k);
    }
  }

  /** Off the common prefix, a key is on the same side of all strings that share it. */
  lemma {:induction false} DivergesTogether(init: bytes, x: bytes, y: bytes, k: bytes)
    requires !(init <= k)
    ensures Less(k, init + x) <==> Less(k, init + y)
  {
    if k != [] && k[0] == init[0] {
      assert (init + x)[1..] == init[1..] + x && (init + y)[1..] == init[1..] + y;
      assert !(init[1..] <= k[1..]);
      DivergesTogether(init[1..], x, y, k[1..]);
    }
  }

  /** Increment with carry gives the exact upper bound of everything that starts with `v`. */
  lemma {:induction false} BumpIsPrefixBound(v: bytes, k: bytes)
    requires Bumpable(v)
    ensures Between(v, k, Bump(v)) <==> v <= k
  {
    var init, last := v[..|v| - 1], v[|v| - 1];
    assert v == init + [last];
    if last < 255 {
      LastByteBound(init, last, k);
    } else {
      assert Bumpable(init);
      BumpIsPrefixBound(init, k);
      if init <= k {
        SplitAtPrefix(init, k);
        var rest := k[|init|..];
        LessAfterPrefix(init, rest, [last]);
        assert v <= k <==> rest != [] && rest[0] == last;
      } else {
        DivergesTogether(init, [last], [], k);
        assert init + [] == init;
      }
    }
  }

  function HiBoundOf(bucket: bytes, prefix: bytes): bytes {
    Bump(Encode(bucket, prefix))
  }

  /** A byte string is in the range of a prefix scan exactly when it starts with the encoded prefix. */
  lemma RangeIsPrefix(bucket: bytes, prefix: bytes, k: bytes)
    ensures Between(Encode(bucket, prefix), k, HiBoundOf(bucket, prefix)) <==> Encode(bucket, prefix) <= k
  {
    assert Encode(bucket, prefix)[|bucket|] == 0;
    BumpIsPrefixBound(Encode(bucket, prefix), k);
  }

  method HiBound(bucket: bytes, prefix: bytes) returns (v: bytes)
    ensures v == HiBoundOf(bucket, prefix) && v != []
    ensures forall k :: Between(Encode(bucket, prefix), k, v) <==> Encode(bucket, prefix) <= k
  {
    v := bucket;
    if prefix == [] {
      v := v + [1];
      assert v[..|bucket|] == bucket == Encode(bucket, prefix)[..|bucket|];
    } else {
      v := v + [0];
      v := v + prefix;
      assert v[|bucket|] == 0;
      while v != []
        invariant Bumpable(v) && Bump(v) == HiBoundOf(bucket, prefix)
      {
        if v[|v| - 1] < 255 {
          ghost var was := v;
          v := v[|v| - 1 := v[|v| - 1] + 1];
          assert v == Bump(was);
          break;
        }
        v := v[..|v| - 1];
      }
    }
    forall k ensures Between(Encode(bucket, prefix), k, v) <==> Encode(bucket, prefix) <= k {
      RangeIsPrefix(bucket, prefix, k);
    }
  }

  // ---- Reading one page ----

  /** `page` is the first `limit` elements of `matching` in ascending order. */
  ghost predicate IsPage(page: seq<bytes>, matching: set<bytes>, limit: nat) {
    && Ascending(page)
    && |page| <= limit
    && (forall k :: k in page ==> k in matching)
    && (forall k :: k in matching && k !in page ==> |page| == limit && forall p :: p in page ==> Less(p, k))
  }

  lemma PagesAgreeUpTo(p: seq<bytes>, q: seq<bytes>, matching: set<bytes>, limit: nat, n: nat)
    requires IsPage(p, matching, limit) && IsPage(q, matching, limit) && n <= |p| && n <= |q|
    ensures p[..n] == q[..n]
  {
    if n > 0 {
      PagesAgreeUpTo(p, q, matching, limit, n - 1);
      var a, b := p[n - 1], q[n - 1];
      if a != b {
        LessTotal(a, b);
        if Less(a, b) {
          MissingElement(p, q, matching, limit, n - 1);
        } else {
          MissingElement(q, p, matching, limit, n - 1);
        }
      }
    }
  }

  /** Two pages that agree before position `i` cannot differ there. */
  lemma MissingElement(p: seq<bytes>, q: seq<bytes>, matching: set<bytes>, limit: nat, i: nat)
    requires IsPage(p, matching, limit) && IsPage(q, matching, limit) && i < |p| && i < |q|
    requires p[..i] == q[..i]
    ensures !Less(p[i], q[i])
  {
    LessIrreflexive(p[i]);
    if Less(p[i], q[i]) {
      forall j | 0 <= j < |q| ensures q[j] != p[i] {
        if j < i {
          assert q[j] == q[..i][j] == p[..i][j] == p[j];
        } else {
          LessAsymmetric(p[i], q[i]);
        }
      }
      assert p[i] in p && p[i] !in q && q[i] in q;
      assert Less(q[i], p[i]);
      LessAsymmetric(p[i], q[i]);
    }
  }

  /** The description determines the page. */
  lemma PageIsUnique(p: seq<bytes>, q: seq<bytes>, matching: set<bytes>, limit: nat)
    requires IsPage(p, matching, limit) && IsPage(q, matching, limit)
    ensures p == q
  {
    if |p| <= |q| {
      PagesAgreeUpTo(p, q, matching, limit, |p|);
      NoShorterPage(p, q, matching, limit);
    } else {
      PagesAgreeUpTo(p, q, matching, limit, |q|);
      NoShorterPage(q, p, matching, limit);
    }
  }

  lemma NoShorterPage(p: seq<bytes>, q: seq<bytes>, matching: set<bytes>, limit: nat)
    requires IsPage(p, matching, limit) && IsPage(q, matching, limit)
    requires |p| <= |q| && p == q[..|p|]
    ensures p == q
  {
    if |p| < |q| {
      var k := q[|p|];
      assert k in q;
      LessIrreflexive(k);
    }
  }

  /** Which keys a page may list: after the cursor if there is one, and under the prefix. */
  predicate KeyMatches(key: bytes, prefix: bytes, cursor: Option<bytes>) {
    match cursor
    case None => prefix <= key
    case Some(c) => Less(c, key) && (prefix <= key || Less(key, prefix))
  }

  /** For a cursor that starts with the prefix, as the interface asks, the range is the prefix. */
  lemma CursorUnderPrefix(key: bytes, prefix: bytes, c: bytes)
    requires prefix <= c
    ensures KeyMatches(key, prefix, Some(c)) <==> Less(c, key) && prefix <= key
  {
    SplitAtPrefix(prefix, c);
    LessAfterPrefix(prefix, c[|prefix|..], []);
    assert prefix + [] == prefix;
    if Less(c, key) && Less(key, prefix) {
      LessTransitive(c, key, prefix);
    }
  }

  predicate InBucket(entry: bytes, bucket: bytes) {
    Encode(bucket, []) <= entry && |entry| > |bucket| + 1 && IsUtf8(entry[|bucket| + 1..])
  }

  function KeyOf(entry: bytes, bucket: bytes): bytes
    requires |entry| > |bucket| + 1
  {
    entry[|bucket| + 1..]
  }

  /** Filter form of a listing: the bucket's keys that match. */
  function Matching(entries: set<bytes>, bucket: bytes, prefix: bytes, cursor: Option<bytes>): set<bytes> {
    set e | e in entries && InBucket(e, bucket) && KeyMatches(KeyOf(e, bucket), prefix, cursor) :: KeyOf(e, bucket)
  }

  function Elements(s: seq<bytes>): set<bytes> {
    set e | e in s
  }

  /** The sorted map's range iterator. */
  function Range(entries: seq<bytes>, lo: bytes, hi: bytes): seq<bytes> {
    if entries == [] then []
    else (if Between(lo, entries[0], hi) then [entries[0]] else []) + Range(entries[1..], lo, hi)
  }

  /** The keys read off a run of raw entries; entries that are too short or not UTF-8 are skipped. */
  function KeysOf(raw: seq<bytes>, bucket: bytes): seq<bytes> {
    if raw == [] then []
    else
      var before, e := KeysOf(raw[..|raw| - 1], bucket), raw[|raw| - 1];
      if |e| > |bucket| + 1 && IsUtf8(KeyOf(e, bucket)) then before + [KeyOf(e, bucket)] else before
  }

  function LoBound(bucket: bytes, prefix: bytes, cursor: Option<bytes>): bytes {
    match cursor
    case Some(c) => Encode(bucket, c) + [0]
    case None => Encode(bucket, prefix)
  }

  lemma {:induction false} RangeElements(entries: seq<bytes>, lo: bytes, hi: bytes)
    requires Ascending(entries)
    ensures Ascending(Range(entries, lo, hi))
    ensures forall e :: e in Range(entries, lo, hi) <==> e in entries && Between(lo, e, hi)
  {
    if entries == [] {
    } else {
      var rest := entries[1..];
      RangeElements(rest, lo, hi);
      var tail := Range(rest, lo, hi);
      forall e | e in tail ensures Less(entries[0], e) {
        var j :| 0 <= j < |rest| && rest[j] == e;
        assert entries[j + 1] == e;
      }
    }
  }

  lemma {:induction false} KeysOfElements(raw: seq<bytes>, bucket: bytes)
    requires forall e :: e in raw ==> Encode(bucket, []) <= e
    ensures forall k :: k in KeysOf(raw, bucket) <==> exists e :: e in raw && InBucket(e, bucket) && k == KeyOf(e, bucket)
  {
    if raw == [] {
    } else {
      var init, e := raw[..|raw| - 1], raw[|raw| - 1];
      assert raw == init + [e];
      assert forall d :: d in raw <==> d in init || d == e;
      KeysOfElements(init, bucket);
      forall k | k in KeysOf(raw, bucket)
        ensures exists d :: d in raw && InBucket(d, bucket) && k == KeyOf(d, bucket)
      {
        if k in KeysOf(init, bucket) {
          var d :| d in init && InBucket(d, bucket) && k == KeyOf(d, bucket);
        } else {
          assert e in raw && InBucket(e, bucket);
        }
      }
    }
  }

  lemma AppendAscending(s: seq<bytes>, k: bytes)
    requires Ascending(s) && forall x :: x in s ==> Less(x, k)
    ensures Ascending(s + [k])
  {
  }

  lemma {:induction false} KeysOfAscending(raw: seq<bytes>, bucket: bytes)
    requires Ascending(raw)
    requires forall e :: e in raw ==> Encode(bucket, []) <= e
    ensures Ascending(KeysOf(raw, bucket))
  {
    if raw == [] {
    } else {
      var p, init, e := Encode(bucket, []), raw[..|raw| - 1], raw[|raw| - 1];
      assert forall d :: d in init ==> d in raw;
      KeysOfAscending(init, bucket);
      KeysOfElements(init, bucket);
      assert e in raw;
      SplitAtPrefix(p, e);
      forall k | k in KeysOf(init, bucket) ensures Less(k, e[|p|..]) {
        var d :| d in init && InBucket(d, bucket) && k == KeyOf(d, bucket);
        SplitAtPrefix(p, d);
        LessAfterPrefix(p, k, e[|p|..]);
      }
      AppendAscending(KeysOf(init, bucket), e[|p|..]);
    }
  }

  /** A string between two strings with a common prefix shares that prefix. */
  lemma SharesPrefix(p: bytes, x: bytes, y: bytes, e: bytes)
    requires Less(p + x, e) && Less(e, p + y)
    ensures p <= e
  {
    if !(p <= e) {
      DivergesTogether(p, x, y, e);
      LessAsymmetric(p + x, e);
    }
  }

  lemma EncodeSplits(bucket: bytes, key: bytes)
    ensures Encode(bucket, key) == Encode(bucket, []) + key
    ensures Encode(bucket, []) <= Encode(bucket, key)
  {
  }

  /** The range of a scan holds the entries of the bucket whose key matches. */
  lemma RangeMatches(bucket: bytes, prefix: bytes, cursor: Option<bytes>, e: bytes)
    ensures Between(LoBound(bucket, prefix, cursor), e, HiBoundOf(bucket, prefix))
            <==> Encode(bucket, []) <= e && KeyMatches(e[|bucket| + 1..], prefix, cursor)
  {
    var p, hi := Encode(bucket, []), HiBoundOf(bucket, prefix);
    EncodeSplits(bucket, prefix);
    RangeIsPrefix(bucket, prefix, e);
    if p <= e {
      SplitAtPrefix(p, e);
      PrefixAfterPrefix(p, prefix, e[|p|..]);
    }
    match cursor
    case None => assert p + prefix <= e ==> p <= e;
    case Some(c) =>
      EncodeSplits(bucket, c);
      NothingBetween(p + c, e);
      BelowHiBound(bucket, prefix, e);
      if p <= e {
        LessAfterPrefix(p, c, e[|p|..]);
        LessAfterPrefix(p, e[|p|..], prefix);
      } else if Less(p + c, e) && Less(e, p + prefix) {
        SharesPrefix(p, c, prefix, e);
      }
  }

  lemma PrefixAfterPrefix(p: bytes, a: bytes, b: bytes)
    ensures p + a <= p + b <==> a <= b
  {
    assert (p + b)[|p|..] == b;
    if p + a <= p + b {
      assert (p + b)[..|p| + |a|] == p + a;
      assert b[..|a|] == (p + b)[|p|..|p| + |a|] == a;
    }
    if a <= b {
      assert (p + b)[..|p| + |a|] == p + b[..|a|];
    }
  }

  /** Below the upper bound is everything under the prefix and everything before it. */
  lemma BelowHiBound(bucket: bytes, prefix: bytes, e: bytes)
    ensures Less(e, HiBoundOf(bucket, prefix)) <==>
            Less(e, Encode(bucket, prefix)) || Encode(bucket, prefix) <= e
  {
    var v, hi := Encode(bucket, prefix), HiBoundOf(bucket, prefix);
    RangeIsPrefix(bucket, prefix, e);
    RangeIsPrefix(bucket, prefix, v);
    if Less(e, v) {
      LessTransitive(e, v, hi);
    }
  }

  /** The fast range form lists, in order, exactly what the filter form selects. */
  lemma RangeListsMatching(entries: seq<bytes>, bucket: bytes, prefix: bytes, cursor: Option<bytes>)
    requires Ascending(entries)
    ensures var all := KeysOf(Range(entries, LoBound(bucket, prefix, cursor), HiBoundOf(bucket, prefix)), bucket);
            Ascending(all) && Elements(all) == Matching(Elements(entries), bucket, prefix, cursor)
  {
    var lo, hi := LoBound(bucket, prefix, cursor), HiBoundOf(bucket, prefix);
    var raw := Range(entries, lo, hi);
    RangeElements(entries, lo, hi);
    forall e ensures Between(lo, e, hi) <==> Encode(bucket, []) <= e && KeyMatches(e[|bucket| + 1..], prefix, cursor) {
      RangeMatches(bucket, prefix, cursor, e);
    }
    KeysOfElements(raw, bucket);
    KeysOfAscending(raw, bucket);
  }

  /** The first keys of an ascending list form a page of its elements. */
  lemma FirstIsPage(all: seq<bytes>, page: seq<bytes>, limit: nat)
    requires Ascending(all) && page <= all && |page| <= limit && (page == all || |page| == limit)
    ensures IsPage(page, Elements(all), limit)
  {
    assert forall i :: 0 <= i < |page| ==> page[i] == all[i];
    forall k | k in all && k !in page ensures |page| == limit && forall p :: p in page ==> Less(p, k) {
      var j :| 0 <= j < |all| && all[j] == k;
    }
  }

  lemma KeysOfNext(raw: seq<bytes>, i: nat, bucket: bytes)
    requires i < |raw|
    ensures KeysOf(raw[..i + 1], bucket) ==
            KeysOf(raw[..i], bucket)
            + (if |raw[i]| > |bucket| + 1 && IsUtf8(KeyOf(raw[i], bucket)) then [KeyOf(raw[i], bucket)] else [])
  {
    assert raw[..i + 1][..i] == raw[..i];
  }

  /** Reading `i` entries of the range gives a page if they are all there are or fill the limit. */
  lemma ScannedIsPage(entries: seq<bytes>, bucket: bytes, prefix: bytes, cursor: Option<bytes>, limit: nat, i: nat)
    requires Ascending(entries)
    requires var iter := Range(entries, LoBound(bucket, prefix, cursor), HiBoundOf(bucket, prefix));
             && i <= |iter| && |KeysOf(iter[..i], bucket)| <= limit
             && (i < |iter| ==> |KeysOf(iter[..i], bucket)| == limit)
    ensures var iter := Range(entries, LoBound(bucket, prefix, cursor), HiBoundOf(bucket, prefix));
            IsPage(KeysOf(iter[..i], bucket), Matching(Elements(entries), bucket, prefix, cursor), limit)
  {
    var iter := Range(entries, LoBound(bucket, prefix, cursor), HiBoundOf(bucket, prefix));
    assert iter[..|iter|] == iter;
    KeysOfPrefix(iter, i, bucket);
    RangeListsMatching(entries, bucket, prefix, cursor);
    FirstIsPage(KeysOf(iter, bucket), KeysOf(iter[..i], bucket), limit);
  }

  function InsertSorted(s: seq<bytes>, k: bytes): seq<bytes> {
    if s == [] || Less(k, s[0]) then [k] + s
    else if k == s[0] then s
    else [s[0]] + InsertSorted(s[1..], k)
  }

  function RemoveSorted(s: seq<bytes>, k: bytes): seq<bytes> {
    if s == [] then [] else if s[0] == k then s[1..] else [s[0]] + RemoveSorted(s[1..], k)
  }

  lemma {:induction false} InsertSortedElements(s: seq<bytes>, k: bytes)
    requires Ascending(s)
    ensures Ascending(InsertSorted(s, k)) && Elements(InsertSorted(s, k)) == Elements(s) + {k}
  {
    if s == [] {
    } else if Less(k, s[0]) {
      forall j | 0 < j < |s| ensures Less(k, s[j]) {
        LessTransitive(k, s[0], s[j]);
      }
    } else if k != s[0] {
      LessTotal(k, s[0]);
      InsertSortedElements(s[1..], k);
      var rest := InsertSorted(s[1..], k);
      forall e | e in rest ensures Less(s[0], e) {
        assert e in Elements(rest);
      }
      assert forall e :: e in s <==> e == s[0] || e in s[1..];
      assert forall e :: e in rest <==> e in Elements(rest);
    }
  }

  lemma {:induction false} RemoveSortedElements(s: seq<bytes>, k: bytes)
    requires Ascending(s)
    ensures Ascending(RemoveSorted(s, k)) && Elements(RemoveSorted(s, k)) == Elements(s) - {k}
  {
    if s == [] {
    } else if s[0] == k {
      LessIrreflexive(k);
      assert forall e :: e in s <==> e == s[0] || e in s[1..];
    } else {
      RemoveSortedElements(s[1..], k);
      var rest := RemoveSorted(s[1..], k);
      forall e | e in rest ensures Less(s[0], e) {
        assert e in Elements(rest);
      }
      assert forall e :: e in s <==> e == s[0] || e in s[1..];
      assert forall e :: e in rest <==> e in Elements(rest);
    }
  }

  // ---- Agreement with the file system ----

  /** The entries for the given keys below `prefix`. */
  function Encoded(bucket: bytes, prefix: bytes, keys: set<bytes>): set<bytes> {
    set k | k in keys :: Encode(bucket, JoinKey(prefix, k))
  }

  function FirstZero(e: bytes): nat {
    if e == [] || e[0] == 0 then 0 else 1 + FirstZero(e[1..])
  }

  lemma {:induction false} FirstZeroBound(e: bytes)
    ensures FirstZero(e) <= |e|
    ensures forall i :: 0 <= i < FirstZero(e) ==> e[i] != 0
    ensures FirstZero(e) < |e| ==> e[FirstZero(e)] == 0
  {
    if e != [] && e[0] != 0 {
      FirstZeroBound(e[1..]);
    }
  }

  /** An entry split at its first zero byte; `None` when it has none or a side is not UTF-8. */
  function Decode(e: bytes): (r: Option<(bytes, bytes)>)
    ensures r.Some? ==> e == Encode(r.value.0, r.value.1)
  {
    FirstZeroBound(e);
    var sep := FirstZero(e);
    if sep < |e| && IsUtf8(e[..sep]) && IsUtf8(e[sep + 1..]) then Some((e[..sep], e[sep + 1..])) else None
  }

  /** Splitting an entry recovers its bucket and key. */
  lemma DecodeEncode(bucket: bytes, key: bytes)
    requires 0 !in bucket && IsUtf8(bucket) && IsUtf8(key)
    ensures Decode(Encode(bucket, key)) == Some((bucket, key))
  {
    var e := Encode(bucket, key);
    FirstZeroBound(e);
    var sep := FirstZero(e);
    assert e[|bucket|] == 0;
    assert forall i :: 0 <= i < |bucket| ==> e[i] == bucket[i];
    assert e[..|bucket|] == bucket && e[|bucket| + 1..] == key;
  }

  /** Whether a path exists: the answer `exists()` gives for a bucket and a key. */
  type Probe = (bytes, bytes) -> bool

  /** Entries that cannot be decoded are skipped, hence kept. */
  predicate Keep(e: bytes, probe: Probe) {
    match Decode(e)
    case None => true
    case Some((bucket, key)) => probe(bucket, key)
  }

  predicate IsBucket(e: Entry) {
    IsUtf8(e.name) && (e.name == [] || e.name[0] != DOT) && e.node.Dir?
  }

  function BucketEntries(e: Entry): set<bytes> {
    if IsBucket(e) then Encoded(e.name, [], FileKeys(e.node.entries)) else {}
  }

  /** The entries of every file in every bucket. */
  function Walked(root: seq<Entry>): set<bytes> {
    if root == [] then {} else Walked(root[..|root| - 1]) + BucketEntries(root[|root| - 1])
  }

  /** Entries whose path is gone. */
  function Stale(entries: set<bytes>, probe: Probe): set<bytes> {
    set e | e in entries && !Keep(e, probe)
  }

  function Reconciled(before: set<bytes>, root: seq<Entry>, probe: Probe): set<bytes> {
    set e | e in before + Walked(root) && Keep(e, probe)
  }

  datatype ReconcileStats = ReconcileStats(inserted: nat, removed: nat)

  lemma EncodeInjective(b1: bytes, k1: bytes, b2: bytes, k2: bytes)
    requires 0 !in b1 && 0 !in b2 && Encode(b1, k1) == Encode(b2, k2)
    ensures b1 == b2 && k1 == k2
  {
    var e := Encode(b1, k1);
    assert e[|b1|] == 0 && e[|b2|] == 0;
    assert forall i :: 0 <= i < |b1| ==> e[i] == b1[i];
    assert forall i :: 0 <= i < |b2| ==> e[i] == b2[i];
    assert b1 == e[..|b1|] && b2 == e[..|b2|] && k1 == e[|b1| + 1..] && k2 == e[|b2| + 1..];
  }

  /** Files under different entries of a directory have different index entries. */
  lemma SiblingsDisjoint(bucket: bytes, prefix: bytes, entries: seq<Entry>, n: nat)
    requires ValidEntries(entries) && n < |entries|
    ensures Encoded(bucket, prefix, FileKeys(entries[..n])) !! Encoded(bucket, prefix, EntryKeys(entries[n]))
  {
    forall a, b | a in FileKeys(entries[..n]) && b in EntryKeys(entries[n])
      ensures Encode(bucket, JoinKey(prefix, a)) != Encode(bucket, JoinKey(prefix, b))
    {
      FileKeysElements(entries[..n], a);
      var i :| 0 <= i < n && a in EntryKeys(entries[..n][i]);
      EntryKeysHead(entries[i], a);
      EntryKeysHead(entries[n], b);
      if Encode(bucket, JoinKey(prefix, a)) == Encode(bucket, JoinKey(prefix, b)) {
        assert Encode(bucket, JoinKey(prefix, a))[|bucket| + 1..] == JoinKey(prefix, a);
        assert Encode(bucket, JoinKey(prefix, b))[|bucket| + 1..] == JoinKey(prefix, b);
        JoinKeyInjective(prefix, a, b);
      }
    }
  }

  lemma EncodedUnion(bucket: bytes, prefix: bytes, a: set<bytes>, b: set<bytes>)
    ensures Encoded(bucket, prefix, a + b) == Encoded(bucket, prefix, a) + Encoded(bucket, prefix, b)
  {
  }

  /** A directory's files, seen from its parent. */
  lemma EncodedNested(bucket: bytes, prefix: bytes, e: Entry)
    requires e.node.Dir? && IsUtf8(e.name) && e.name != []
    ensures Encoded(bucket, prefix, EntryKeys(e)) == Encoded(bucket, JoinKey(prefix, e.name), FileKeys(e.node.entries))
  {
    forall k ensures JoinKey(JoinKey(prefix, e.name), k) == JoinKey(prefix, e.name + [SLASH] + k) {
      JoinKeyNested(prefix, e.name, k);
    }
    var up := Encoded(bucket, prefix, EntryKeys(e));
    var down := Encoded(bucket, JoinKey(prefix, e.name), FileKeys(e.node.entries));
    forall x | x in up ensures x in down {
      var k :| k in EntryKeys(e) && x == Encode(bucket, JoinKey(prefix, k));
      var r :| r in FileKeys(e.node.entries) && k == e.name + [SLASH] + r;
    }
    forall x | x in down ensures x in up {
      var r :| r in FileKeys(e.node.entries) && x == Encode(bucket, JoinKey(JoinKey(prefix, e.name), r));
      assert e.name + [SLASH] + r in EntryKeys(e);
    }
  }

  /** The files below a directory that the index does not have yet. */
  function NewEntries(bucket: bytes, prefix: bytes, keys: set<bytes>, indexed: set<bytes>): set<bytes> {
    Encoded(bucket, prefix, keys) - indexed
  }

  /** Counting new entries goes entry by entry. */
  lemma CountEntry(bucket: bytes, prefix: bytes, entries: seq<Entry>, n: nat, indexed: set<bytes>)
    requires ValidEntries(entries) && n < |entries|
    ensures var before := NewEntries(bucket, prefix, FileKeys(entries[..n]), indexed);
            var mine := NewEntries(bucket, prefix, EntryKeys(entries[n]), indexed);
            var after := NewEntries(bucket, prefix, FileKeys(entries[..n + 1]), indexed);
            after == before + mine && |after| == |before| + |mine|
  {
    FileKeysSnoc(entries, n);
    EncodedUnion(bucket, prefix, FileKeys(entries[..n]), EntryKeys(entries[n]));
    SiblingsDisjoint(bucket, prefix, entries, n);
  }

  ghost predicate Distinct(s: seq<bytes>) {
    forall i, j :: 0 <= i < j < |s| ==> s[i] != s[j]
  }

  lemma {:induction false} DistinctSize(s: seq<bytes>)
    requires Distinct(s)
    ensures |Elements(s)| == |s|
  {
    if s == [] {
    } else {
      var init := s[..|s| - 1];
      DistinctSize(init);
      assert Elements(s) == Elements(init) + {s[|s| - 1]};
    }
  }

  lemma NotBefore(s: seq<bytes>, i: nat)
    requires Ascending(s) && i < |s|
    ensures s[i] !in s[..i]
    ensures forall e :: e in s[..i + 1] <==> e in s[..i] || e == s[i]
  {
    LessIrreflexive(s[i]);
    assert s[..i + 1] == s[..i] + [s[i]];
  }

  lemma CountDisjoint(a: set<bytes>, b: set<bytes>, before: set<bytes>)
    requires a !! b
    ensures |(a + b) - before| == |a - before| + |b - before|
  {
    assert (a + b) - before == (a - before) + (b - before);
  }

  lemma AddMissing(before: set<bytes>, done: set<bytes>, mine: set<bytes>)
    ensures (before + done) + (mine - before) == before + (done + mine)
  {
  }

  lemma UnionAssociative(a: set<bytes>, b: set<bytes>, c: set<bytes>)
    ensures (a + b) + c == a + (b + c)
  {
  }

  /** What one directory entry adds: nothing, what is below it, or itself. */
  lemma EntryAdds(bucket: bytes, prefix: bytes, e: Entry, indexed: set<bytes>)
    requires e.name != []
    ensures var added := NewEntries(bucket, prefix, EntryKeys(e), indexed);
            var relKey := JoinKey(prefix, e.name);
            && (!IsUtf8(e.name) ==> added == {})
            && (IsUtf8(e.name) && e.node.Dir? ==> added == NewEntries(bucket, relKey, FileKeys(e.node.entries), indexed))
            && (IsUtf8(e.name) && e.node.File? ==> added == {Encode(bucket, relKey)} - indexed)
  {
    if IsUtf8(e.name) {
      if e.node.Dir? {
        EncodedNested(bucket, prefix, e);
      } else {
        assert Encoded(bucket, prefix, EntryKeys(e)) == {Encode(bucket, JoinKey(prefix, e.name))};
      }
    }
  }

  lemma {:induction false} WalkedElements(root: seq<Entry>, x: bytes)
    ensures x in Walked(root) <==> exists i :: 0 <= i < |root| && x in BucketEntries(root[i])
  {
    if root == [] {
    } else {
      var init := root[..|root| - 1];
      WalkedElements(init, x);
      assert forall i :: 0 <= i < |init| ==> init[i] == root[i];
    }
  }

  /** Different buckets have different entries. */
  lemma BucketsDisjoint(root: seq<Entry>, n: nat)
    requires ValidEntries(root) && n < |root|
    ensures Walked(root[..n]) !! BucketEntries(root[n])
    ensures Walked(root[..n + 1]) == Walked(root[..n]) + BucketEntries(root[n])
  {
    assert root[..n + 1][..n] == root[..n];
    forall x | x in Walked(root[..n]) && x in BucketEntries(root[n]) ensures false {
      WalkedElements(root[..n], x);
      var i :| 0 <= i < n && x in BucketEntries(root[..n][i]);
      var a :| a in FileKeys(root[i].node.entries) && x == Encode(root[i].name, JoinKey([], a));
      var b :| b in FileKeys(root[n].node.entries) && x == Encode(root[n].name, JoinKey([], b));
      EncodeInjective(root[i].name, a, root[n].name, b);
    }
  }

  /** Measured against the entries of its own bucket only, a bucket has the same files missing. */
  lemma MissingInBucket(before: set<bytes>, root: seq<Entry>, n: nat, indexed: set<bytes>)
    requires ValidEntries(root) && n < |root| && IsBucket(root[n])
    requires forall e :: e in indexed <==> e in before + Walked(root[..n]) && Encode(root[n].name, []) <= e
    ensures NewEntries(root[n].name, [], FileKeys(root[n].node.entries), indexed) == BucketEntries(root[n]) - before
  {
    BucketsDisjoint(root, n);
    forall k | k in FileKeys(root[n].node.entries)
      ensures Encode(root[n].name, []) <= Encode(root[n].name, JoinKey([], k))
    {
      EncodeSplits(root[n].name, JoinKey([], k));
    }
  }

  class Index {
    /** The sorted map; values are empty, so only the keys are kept. */
    var partition: seq<bytes>
    ghost var contents: set<bytes>

    ghost predicate Valid()
      reads this
    {
      Ascending(partition) && contents == Elements(partition)
    }

    constructor ()
      ensures Valid() && contents == {}
    {
      partition, contents := [], {};
    }

    method Insert(bucket: bytes, key: bytes)
      requires Valid()
      modifies this
      ensures Valid() && contents == old(contents) + {Encode(bucket, key)}
    {
      InsertSortedElements(partition, Encode(bucket, key));
      partition := InsertSorted(partition, Encode(bucket, key));
      contents := contents + {Encode(bucket, key)};
    }

    method Delete(bucket: bytes, key: bytes)
      requires Valid()
      modifies this
      ensures Valid() && contents == old(contents) - {Encode(bucket, key)}
    {
      RemoveSortedElements(partition, Encode(bucket, key));
      partition := RemoveSorted(partition, Encode(bucket, key));
      contents := contents - {Encode(bucket, key)};
    }

    method Scan(bucket: bytes, prefix: bytes, cursor: Option<bytes>, limit: nat) returns (results: seq<bytes>)
      requires Valid()
      ensures IsPage(results, Matching(contents, bucket, prefix, cursor), limit)
    {
      var lo := match cursor
        case Some(c) => Encode(bucket, c) + [0]
        case None => Encode(bucket, prefix);
      var hi := HiBound(bucket, prefix);
      var iter := Range(partition, lo, hi);
      results := [];
      var i := 0;
      while i < |iter|
        invariant i <= |iter| && |results| <= limit
        invariant results == KeysOf(iter[..i], bucket)
      {
        if |results| >= limit {
          break;
        }
        var raw := iter[i];
        KeysOfNext(iter, i, bucket);
        i := i + 1;
        if |raw| <= |bucket| + 1 {
          continue;
        }
        if IsUtf8(raw[|bucket| + 1..]) {
          results := results + [raw[|bucket| + 1..]];
        }
      }
      ScannedIsPage(partition, bucket, prefix, cursor, limit, i);
    }

    method WalkBucket(bucket: bytes, prefix: bytes, dir: Node, stats: ReconcileStats, indexed: set<bytes>)
      returns (r: ReconcileStats)
      requires Valid() && dir.Dir? && ValidEntries(dir.entries)
      modifies this
      ensures Valid()
      ensures contents == old(contents) + NewEntries(bucket, prefix, FileKeys(dir.entries), indexed)
      ensures r == stats.(inserted := stats.inserted + |NewEntries(bucket, prefix, FileKeys(dir.entries), indexed)|)
      decreases dir
    {
      r := stats;
      var entries := dir.entries;
      ghost var done: set<bytes> := {};
      for i := 0 to |entries|
        invariant Valid()
        invariant done == NewEntries(bucket, prefix, FileKeys(entries[..i]), indexed)
        invariant contents == old(contents) + done
        invariant r == stats.(inserted := stats.inserted + |done|)
      {
        ghost var mine := NewEntries(bucket, prefix, EntryKeys(entries[i]), indexed);
        CountEntry(bucket, prefix, entries, i, indexed);
        UnionAssociative(old(contents), done, mine);
        r := VisitEntry(bucket, prefix, entries[i], r, indexed);
        done := done + mine;
      }
      assert entries[..|entries|] == entries;
    }

    /** The body of the walk's loop. */
    method VisitEntry(bucket: bytes, prefix: bytes, entry: Entry, stats: ReconcileStats, indexed: set<bytes>)
      returns (r: ReconcileStats)
      requires Valid() && entry.name != [] && (entry.node.Dir? ==> ValidEntries(entry.node.entries))
      modifies this
      ensures Valid()
      ensures contents == old(contents) + NewEntries(bucket, prefix, EntryKeys(entry), indexed)
      ensures r == stats.(inserted := stats.inserted + |NewEntries(bucket, prefix, EntryKeys(entry), indexed)|)
      decreases entry
    {
      EntryAdds(bucket, prefix, entry, indexed);
      if !IsUtf8(entry.name) {
        assert contents + {} == contents;
        r := stats;
      } else {
        var relKey := JoinKey(prefix, entry.name);
        if entry.node.Dir? {
          r := WalkBucket(bucket, relKey, entry.node, stats, indexed);
        } else {
          r := InsertMissing(bucket, relKey, stats, indexed);
        }
      }
    }

    /** The bucket's current entries, read with the same bounds as a listing. */
    method BucketRange(bucket: bytes) returns (indexed: set<bytes>)
      requires Valid()
      ensures forall e :: e in indexed <==> e in contents && Encode(bucket, []) <= e
    {
      var lo := Encode(bucket, []);
      var hi := HiBound(bucket, []);
      RangeElements(partition, lo, hi);
      indexed := Elements(Range(partition, lo, hi));
    }

    /** File system to index: insert what is missing. */
    method InsertWalked(root: seq<Entry>) returns (stats: ReconcileStats)
      requires Valid() && ValidEntries(root)
      modifies this
      ensures Valid() && contents == old(contents) + Walked(root)
      ensures stats == ReconcileStats(|Walked(root) - old(contents)|, 0)
    {
      stats := ReconcileStats(0, 0);
      ghost var before := contents;
      ghost var done: set<bytes> := {};
      for i := 0 to |root|
        invariant Valid()
        invariant done == Walked(root[..i]) && contents == before + done
        invariant stats == ReconcileStats(|done - before|, 0)
      {
        ghost var mine := BucketEntries(root[i]);
        BucketsDisjoint(root, i);
        CountDisjoint(done, mine, before);
        AddMissing(before, done, mine);
        stats := InsertBucket(root, i, stats, before);
        done := done + mine;
      }
      assert root[..|root|] == root;
    }

    /** The body of the loop over the buckets. */
    method InsertBucket(root: seq<Entry>, i: nat, stats: ReconcileStats, ghost before: set<bytes>)
      returns (r: ReconcileStats)
      requires Valid() && ValidEntries(root) && i < |root| && contents == before + Walked(root[..i])
      modifies this
      ensures Valid() && contents == old(contents) + (BucketEntries(root[i]) - before)
      ensures r == stats.(inserted := stats.inserted + |BucketEntries(root[i]) - before|)
    {
      if IsBucket(root[i]) {
        var indexed := BucketRange(root[i].name);
        MissingInBucket(before, root, i, indexed);
        r := WalkBucket(root[i].name, [], root[i].node, stats, indexed);
      } else {
        r := stats;
      }
    }

    /** Index to file system: collect what is stale, then delete it. */
    method RemoveStale(probe: Probe) returns (removed: nat)
      requires Valid()
      modifies this
      ensures Valid() && contents == old(contents) - Stale(old(contents), probe)
      ensures removed == |Stale(old(contents), probe)|
    {
      var toRemove: seq<(bytes, bytes)> := [];
      ghost var bad: seq<bytes> := [];
      for i := 0 to |partition|
        invariant |bad| == |toRemove|
        invariant forall j :: 0 <= j < |bad| ==> bad[j] == Encode(toRemove[j].0, toRemove[j].1)
        invariant forall e :: e in bad <==> e in partition[..i] && !Keep(e, probe)
        invariant Distinct(bad)
        modifies {}
      {
        var e := partition[i];
        NotBefore(partition, i);
        match Decode(e)
        case None =>
        case Some((bucket, key)) =>
          if !probe(bucket, key) {
            toRemove := toRemove + [(bucket, key)];
            bad := bad + [e];
          }
      }
      assert partition[..|partition|] == partition;
      assert Elements(bad) == Stale(contents, probe);
      removed := 0;
      for j := 0 to |toRemove|
        invariant Valid() && contents == old(contents) - Elements(bad[..j]) && removed == j
      {
        Delete(toRemove[j].0, toRemove[j].1);
        removed := removed + 1;
        assert Elements(bad[..j + 1]) == Elements(bad[..j]) + {bad[j]};
      }
      assert bad[..|bad|] == bad;
      DistinctSize(bad);
    }

    method Reconcile(root: seq<Entry>, probe: Probe) returns (stats: ReconcileStats)
      requires Valid() && ValidEntries(root)
      modifies this
      ensures Valid() && contents == Reconciled(old(contents), root, probe)
      ensures stats.inserted == |Walked(root) - old(contents)|
      ensures stats.removed == |Stale(old(contents) + Walked(root), probe)|
    {
      stats := InsertWalked(root);
      var removed := RemoveStale(probe);
      stats := stats.(removed := removed);
    }

    method InsertMissing(bucket: bytes, key: bytes, stats: ReconcileStats, indexed: set<bytes>)
      returns (r: ReconcileStats)
      requires Valid()
      modifies this
      ensures Valid()
      ensures contents == old(contents) + ({Encode(bucket, key)} - indexed)
      ensures r == stats.(inserted := stats.inserted + |{Encode(bucket, key)} - indexed|)
    {
      var k := Encode(bucket, key);
      if k !in indexed {
        Insert(bucket, key);
        assert {k} - indexed == {k};
        r := stats.(inserted := stats.inserted + 1);
      } else {
        assert {k} - indexed == {};
        r := stats;
      }
    }
  }

  lemma {:induction false} KeysOfPrefix(raw: seq<bytes>, i: nat, bucket: bytes)
    requires i <= |raw|
    ensures KeysOf(raw[..i], bucket) <= KeysOf(raw, bucket)
  {
    if i == |raw| {
      assert raw[..i] == raw;
    } else {
      var init := raw[..|raw| - 1];
      KeysOfPrefix(init, i, bucket);
      assert init[..i] == raw[..i];
    }
  }
}
