/** Listing a bucket page by page, over whole runs of pages. */
module Paging {
  import opened Types
  import opened ByteStrings
  import opened ListingIndex
  import Sequences

  /** What `head_object` says of a key while its page is read. */
  datatype Head<I> = Found(info: I) | Missing | Broken(error: StorageError)

  datatype Item<I> = Item(key: bytes, info: I)

  datatype Page<I> = Page(items: seq<Item<I>>, next: Option<bytes>)

  /** Entries whose file is gone are skipped; any other error fails the page. */
  function LiveItems<I>(keys: seq<bytes>, heads: bytes -> Head<I>): Result<seq<Item<I>>, StorageError> {
    if keys == [] then Ok([])
    else
      match heads(keys[0])
      case Broken(e) => Err(e)
      case Missing => LiveItems(keys[1..], heads)
      case Found(info) =>
        match LiveItems(keys[1..], heads)
        case Err(e) => Err(e)
        case Ok(items) => Ok([Item(keys[0], info)] + items)
  }

  function ItemKeys<I>(items: seq<Item<I>>): seq<bytes> {
    seq(|items|, i requires 0 <= i < |items| => items[i].key)
  }

  /** The items are the keys found alive, in order, each with what its head says, and no head failed. */
  ghost predicate ShowsLive<I>(items: seq<Item<I>>, keys: seq<bytes>, heads: bytes -> Head<I>) {
    && Ascending(ItemKeys(items))
    && (forall k :: k in ItemKeys(items) <==> k in keys && heads(k).Found?)
    && (forall it :: it in items ==> heads(it.key) == Found(it.info))
    && (forall k :: k in keys ==> !heads(k).Broken?)
  }

  /** Moreover a page that the scan filled hands on the last key scanned, listed or not. */
  ghost predicate Shows<I>(page: Page<I>, keys: seq<bytes>, heads: bytes -> Head<I>, limit: nat) {
    && ShowsLive(page.items, keys, heads)
    && (page.next.Some? <==> limit > 0 && |keys| == limit)
    && (page.next.Some? ==> page.next.value == keys[|keys| - 1])
  }

  /** The first head that failed. */
  ghost predicate FirstFailure<I>(keys: seq<bytes>, heads: bytes -> Head<I>, e: StorageError) {
    exists i :: 0 <= i < |keys| && heads(keys[i]) == Broken(e) && forall j :: 0 <= j < i ==> !heads(keys[j]).Broken?
  }

  ghost predicate LiveOrFailed<I>(r: Result<seq<Item<I>>, StorageError>, keys: seq<bytes>, heads: bytes -> Head<I>) {
    if r.Ok? then ShowsLive(r.value, keys, heads) else FirstFailure(keys, heads, r.error)
  }

  lemma {:induction false} LiveItemsElements<I>(keys: seq<bytes>, heads: bytes -> Head<I>)
    requires Ascending(keys)
    ensures LiveOrFailed(LiveItems(keys, heads), keys, heads)
  {
    if keys == [] {
    } else {
      LiveItemsElements(keys[1..], heads);
      var rest := LiveItems(keys[1..], heads);
      if heads(keys[0]).Broken? {
        assert FirstFailure(keys, heads, heads(keys[0]).error);
      } else if rest.Err? {
        LaterFailure(keys, heads, rest.error);
      } else {
        OneMoreKey(keys, heads, rest.value);
      }
    }
  }

  lemma LaterFailure<I>(keys: seq<bytes>, heads: bytes -> Head<I>, e: StorageError)
    requires keys != [] && !heads(keys[0]).Broken? && FirstFailure(keys[1..], heads, e)
    ensures FirstFailure(keys, heads, e)
  {
    var rest := keys[1..];
    var i :| 0 <= i < |rest| && heads(rest[i]) == Broken(e) && forall j :: 0 <= j < i ==> !heads(rest[j]).Broken?;
    assert heads(keys[i + 1]) == Broken(e);
    forall j | 0 <= j < i + 1 ensures !heads(keys[j]).Broken? {
      assert j > 0 ==> rest[j - 1] == keys[j];
    }
  }

  lemma OneMoreKey<I>(keys: seq<bytes>, heads: bytes -> Head<I>, rest: seq<Item<I>>)
    requires Ascending(keys) && keys != [] && !heads(keys[0]).Broken? && ShowsLive(rest, keys[1..], heads)
    ensures var head := heads(keys[0]);
            ShowsLive(if head.Found? then [Item(keys[0], head.info)] + rest else rest, keys, heads)
  {
    assert forall k :: k in keys <==> k == keys[0] || k in keys[1..];
    if heads(keys[0]).Found? {
      var items := [Item(keys[0], heads(keys[0]).info)] + rest;
      assert ItemKeys(items) == [keys[0]] + ItemKeys(rest);
      forall k | k in ItemKeys(rest) ensures Less(keys[0], k) {
        assert k in keys[1..];
      }
    }
  }

  method ListPage<I>(index: Index, heads: bytes -> Head<I>, bucket: bytes, prefix: bytes,
      cursor: Option<bytes>, limit: nat)
    returns (page: Result<Page<I>, StorageError>)
    requires index.Valid()
    ensures exists keys ::
              && IsPage(keys, Matching(index.contents, bucket, prefix, cursor), limit)
              && if page.Ok? then Shows(page.value, keys, heads, limit) else FirstFailure(keys, heads, page.error)
  {
    var keys := index.Scan(bucket, prefix, cursor, limit);
    LiveItemsElements(keys, heads);
    var next := if |keys| == limit && keys != [] then Some(keys[|keys| - 1]) else None;
    var items := LiveItems(keys, heads);
    match items
    case Err(e) => page := Err(e);
    case Ok(live) => page := Ok(Page(live, next));
  }

  // ---- Runs of pages ----

  /** The store as one page saw it: the index at the scan, the heads after it. */
  datatype Visit<I> = Visit(entries: set<bytes>, heads: bytes -> Head<I>, keys: seq<bytes>, page: Page<I>)

  /** The cursor a client sends: none at first, then what the page before said. */
  function CursorAt<I>(visits: seq<Visit<I>>, i: nat): Option<bytes>
    requires i <= |visits|
  {
    if i == 0 then None else visits[i - 1].page.next
  }

  /** Each page is read with the cursor of the page before; the index may change in between. */
  ghost predicate IsRun<I>(visits: seq<Visit<I>>, bucket: bytes, prefix: bytes, limit: nat) {
    visits == [] ||
    var n := |visits| - 1;
    && IsRun(visits[..n], bucket, prefix, limit)
    && (n > 0 ==> CursorAt(visits, n).Some?)
    && IsVisit(visits[n], bucket, prefix, CursorAt(visits, n), limit)
  }

  /** The scan gave the keys after the cursor, and the page shows them. */
  ghost predicate IsVisit<I>(v: Visit<I>, bucket: bytes, prefix: bytes, cursor: Option<bytes>, limit: nat) {
    IsPage(v.keys, Matching(v.entries, bucket, prefix, cursor), limit) && Shows(v.page, v.keys, v.heads, limit)
  }

  /** The run goes from no cursor to no cursor. */
  ghost predicate IsCompleteRun<I>(visits: seq<Visit<I>>, bucket: bytes, prefix: bytes, limit: nat) {
    IsRun(visits, bucket, prefix, limit) && visits != [] && CursorAt(visits, |visits|).None?
  }

  function KeysRead<I>(visits: seq<Visit<I>>): seq<bytes> {
    if visits == [] then [] else KeysRead(visits[..|visits| - 1]) + visits[|visits| - 1].keys
  }

  /** The concatenated pages. */
  function Listed<I>(visits: seq<Visit<I>>): seq<Item<I>> {
    if visits == [] then [] else Listed(visits[..|visits| - 1]) + visits[|visits| - 1].page.items
  }

  /** The key is indexed and can be listed under the prefix. */
  predicate Indexed(entries: set<bytes>, bucket: bytes, prefix: bytes, k: bytes) {
    Encode(bucket, k) in entries && k != [] && IsUtf8(k) && prefix <= k
  }

  lemma MatchingMeans(entries: set<bytes>, bucket: bytes, prefix: bytes, cursor: Option<bytes>, k: bytes)
    requires cursor.Some? ==> prefix <= cursor.value
    ensures k in Matching(entries, bucket, prefix, cursor) <==>
            Indexed(entries, bucket, prefix, k) && (cursor.Some? ==> Less(cursor.value, k))
  {
    var e := Encode(bucket, k);
    EncodeSplits(bucket, k);
    assert e[|bucket| + 1..] == k;
    if cursor.Some? {
      CursorUnderPrefix(k, prefix, cursor.value);
    }
    if k in Matching(entries, bucket, prefix, cursor) {
      var d :| d in entries && InBucket(d, bucket) && KeyOf(d, bucket) == k;
      SplitAtPrefix(Encode(bucket, []), d);
      assert d == e;
    }
  }

  lemma {:induction false} EveryVisit<I>(visits: seq<Visit<I>>, bucket: bytes, prefix: bytes, limit: nat, i: nat)
    requires IsRun(visits, bucket, prefix, limit) && i < |visits|
    ensures IsVisit(visits[i], bucket, prefix, CursorAt(visits, i), limit)
    ensures i > 0 ==> CursorAt(visits, i).Some?
  {
    var n := |visits| - 1;
    if i < n {
      EveryVisit(visits[..n], bucket, prefix, limit, i);
      assert visits[..n][i] == visits[i] && CursorAt(visits[..n], i) == CursorAt(visits, i);
    }
  }

  /** Cursors always start with the prefix, as the index asks of its callers. */
  lemma {:induction false} CursorsUnderPrefix<I>(visits: seq<Visit<I>>, bucket: bytes, prefix: bytes,
      limit: nat, i: nat)
    requires IsRun(visits, bucket, prefix, limit) && i <= |visits|
    ensures CursorAt(visits, i).Some? ==> prefix <= CursorAt(visits, i).value
  {
    if i > 0 && CursorAt(visits, i).Some? {
      CursorsUnderPrefix(visits, bucket, prefix, limit, i - 1);
      EveryVisit(visits, bucket, prefix, limit, i - 1);
      var c := CursorAt(visits, i).value;
      assert c in visits[i - 1].keys;
      MatchingMeans(visits[i - 1].entries, bucket, prefix, CursorAt(visits, i - 1), c);
    }
  }

  lemma PageKeys<I>(visits: seq<Visit<I>>, bucket: bytes, prefix: bytes, limit: nat, i: nat, k: bytes)
    requires IsRun(visits, bucket, prefix, limit) && i < |visits|
    ensures k in visits[i].keys ==>
              Indexed(visits[i].entries, bucket, prefix, k)
              && (CursorAt(visits, i).Some? ==> Less(CursorAt(visits, i).value, k))
    ensures Indexed(visits[i].entries, bucket, prefix, k) && k !in visits[i].keys
            && (CursorAt(visits, i).Some? ==> Less(CursorAt(visits, i).value, k)) ==>
              |visits[i].keys| == limit && forall p :: p in visits[i].keys ==> Less(p, k)
  {
    CursorsUnderPrefix(visits, bucket, prefix, limit, i);
    EveryVisit(visits, bucket, prefix, limit, i);
    MatchingMeans(visits[i].entries, bucket, prefix, CursorAt(visits, i), k);
  }

  /** Everything read so far comes before everything read later, and ends at the cursor. */
  lemma {:induction false} KeysReadAscending<I>(visits: seq<Visit<I>>, bucket: bytes, prefix: bytes, limit: nat)
    requires IsRun(visits, bucket, prefix, limit)
    ensures Ascending(KeysRead(visits))
    ensures CursorAt(visits, |visits|).Some? ==>
              KeysRead(visits) != [] && KeysRead(visits)[|KeysRead(visits)| - 1] == CursorAt(visits, |visits|).value
  {
    if visits == [] {
    } else {
      var n := |visits| - 1;
      var before, last := visits[..n], visits[n].keys;
      KeysReadAscending(before, bucket, prefix, limit);
      var sofar := KeysRead(before);
      assert CursorAt(before, n) == CursorAt(visits, n);
      if n > 0 {
        var c := CursorAt(visits, n).value;
        forall b | b in last ensures Less(c, b) {
          PageKeys(visits, bucket, prefix, limit, n, b);
        }
        BeforeTheCursor(sofar, c, last);
      }
      ConcatAscending(sofar, last);
      if last != [] {
        assert (sofar + last)[|sofar + last| - 1] == last[|last| - 1];
      }
    }
  }

  lemma BeforeTheCursor(sofar: seq<bytes>, c: bytes, later: seq<bytes>)
    requires Ascending(sofar) && sofar != [] && sofar[|sofar| - 1] == c
    requires forall b :: b in later ==> Less(c, b)
    ensures forall a, b :: a in sofar && b in later ==> Less(a, b)
  {
    forall a, b | a in sofar && b in later ensures Less(a, b) {
      if a != c {
        LessTransitive(a, c, b);
      }
    }
  }

  lemma ConcatAscending(a: seq<bytes>, b: seq<bytes>)
    requires Ascending(a) && Ascending(b)
    requires forall x, y :: x in a && y in b ==> Less(x, y)
    ensures Ascending(a + b)
  {
  }

  /** A key that every page found in the index is read, unless it still lies after the cursor. */
  lemma {:induction false} NothingSkipped<I>(visits: seq<Visit<I>>, bucket: bytes, prefix: bytes, limit: nat, k: bytes)
    requires IsRun(visits, bucket, prefix, limit) && limit >= 1
    requires forall i :: 0 <= i < |visits| ==> Indexed(visits[i].entries, bucket, prefix, k)
    ensures visits != [] ==> (exists i :: 0 <= i < |visits| && k in visits[i].keys)
                             || (CursorAt(visits, |visits|).Some? && Less(CursorAt(visits, |visits|).value, k))
  {
    if visits != [] {
      var n := |visits| - 1;
      var before := visits[..n];
      NothingSkipped(before, bucket, prefix, limit, k);
      assert CursorAt(before, n) == CursorAt(visits, n);
      if i :| 0 <= i < n && k in before[i].keys {
        assert k in visits[i].keys;
      } else {
        PageKeys(visits, bucket, prefix, limit, n, k);
      }
    }
  }

  // ---- What a complete run lists ----

  lemma ItemKeysConcat<I>(a: seq<Item<I>>, b: seq<Item<I>>)
    ensures ItemKeys(a + b) == ItemKeys(a) + ItemKeys(b)
  {
  }

  lemma {:induction false} ListedWithinRead<I>(visits: seq<Visit<I>>, bucket: bytes, prefix: bytes, limit: nat)
    requires IsRun(visits, bucket, prefix, limit)
    ensures Ascending(ItemKeys(Listed(visits)))
    ensures forall k :: k in ItemKeys(Listed(visits)) ==> k in KeysRead(visits)
  {
    if visits == [] {
    } else {
      var n := |visits| - 1;
      var before, last := visits[..n], visits[n];
      ListedWithinRead(before, bucket, prefix, limit);
      KeysReadAscending(visits, bucket, prefix, limit);
      var a, b := Listed(before), last.page.items;
      ItemKeysConcat(a, b);
      forall x, y | x in ItemKeys(a) && y in ItemKeys(b) ensures Less(x, y) {
        SeparatedByConcat(KeysRead(before), last.keys, x, y);
      }
      ConcatAscending(ItemKeys(a), ItemKeys(b));
    }
  }

  lemma SeparatedByConcat(a: seq<bytes>, b: seq<bytes>, x: bytes, y: bytes)
    requires Ascending(a + b) && x in a && y in b
    ensures Less(x, y)
  {
    var i :| 0 <= i < |a| && a[i] == x;
    var j :| 0 <= j < |b| && b[j] == y;
    assert (a + b)[i] == x && (a + b)[|a| + j] == y;
  }

  /** Some page read the key and found it alive. */
  ghost predicate FoundAlive<I>(visits: seq<Visit<I>>, k: bytes) {
    exists i :: 0 <= i < |visits| && k in visits[i].keys && visits[i].heads(k).Found?
  }

  lemma FoundAliveSnoc<I>(visits: seq<Visit<I>>, k: bytes)
    requires visits != []
    ensures FoundAlive(visits, k) <==>
            FoundAlive(visits[..|visits| - 1], k)
            || (k in visits[|visits| - 1].keys && visits[|visits| - 1].heads(k).Found?)
  {
    var before := visits[..|visits| - 1];
    assert forall i :: 0 <= i < |before| ==> before[i] == visits[i];
  }

  /** A key is listed exactly when some page read it and found it alive. */
  lemma {:induction false} ListedExactly<I>(visits: seq<Visit<I>>, bucket: bytes, prefix: bytes, limit: nat, k: bytes)
    requires IsRun(visits, bucket, prefix, limit)
    ensures k in ItemKeys(Listed(visits)) <==> FoundAlive(visits, k)
  {
    if visits == [] {
    } else {
      var n := |visits| - 1;
      var before, last := visits[..n], visits[n];
      ListedExactly(before, bucket, prefix, limit, k);
      ItemKeysConcat(Listed(before), last.page.items);
      FoundAliveSnoc(visits, k);
    }
  }

  /** Listed keys are strictly ascending, whatever happens to the store between the pages. */
  lemma PagesAscending<I>(visits: seq<Visit<I>>, bucket: bytes, prefix: bytes, limit: nat)
    requires IsRun(visits, bucket, prefix, limit)
    ensures forall i, j :: 0 <= i < j < |Listed(visits)| ==> Less(Listed(visits)[i].key, Listed(visits)[j].key)
  {
    ListedWithinRead(visits, bucket, prefix, limit);
    var items := Listed(visits);
    forall i, j | 0 <= i < j < |items| ensures Less(items[i].key, items[j].key) {
      assert ItemKeys(items)[i] == items[i].key && ItemKeys(items)[j] == items[j].key;
    }
  }

  /** Only keys that were indexed under the prefix and alive when their page was read are listed. */
  lemma PagesSound<I>(visits: seq<Visit<I>>, bucket: bytes, prefix: bytes, limit: nat, k: bytes)
    requires IsRun(visits, bucket, prefix, limit) && k in ItemKeys(Listed(visits))
    ensures exists i :: 0 <= i < |visits| && Indexed(visits[i].entries, bucket, prefix, k) && visits[i].heads(k).Found?
  {
    ListedExactly(visits, bucket, prefix, limit, k);
    var i :| 0 <= i < |visits| && k in visits[i].keys && visits[i].heads(k).Found?;
    PageKeys(visits, bucket, prefix, limit, i, k);
  }

  /** A key that stayed indexed and alive from the first page to the last is listed. */
  lemma PagesComplete<I>(visits: seq<Visit<I>>, bucket: bytes, prefix: bytes, limit: nat, k: bytes)
    requires IsCompleteRun(visits, bucket, prefix, limit) && limit >= 1
    requires forall i :: 0 <= i < |visits| ==>
               Indexed(visits[i].entries, bucket, prefix, k) && visits[i].heads(k).Found?
    ensures k in ItemKeys(Listed(visits))
  {
    NothingSkipped(visits, bucket, prefix, limit, k);
    ListedExactly(visits, bucket, prefix, limit, k);
  }

  // ---- An unchanging store ----

  ghost predicate Unchanging<I>(visits: seq<Visit<I>>, entries: set<bytes>, heads: bytes -> Head<I>) {
    forall i :: 0 <= i < |visits| ==> visits[i].entries == entries && visits[i].heads == heads
  }

  /** All keys of the bucket under the prefix. */
  function IndexedKeys(entries: set<bytes>, bucket: bytes, prefix: bytes): set<bytes> {
    Matching(entries, bucket, prefix, None)
  }

  lemma {:induction false} FullPagesCount<I>(visits: seq<Visit<I>>, bucket: bytes, prefix: bytes, limit: nat)
    requires IsRun(visits, bucket, prefix, limit) && (visits != [] ==> CursorAt(visits, |visits|).Some?)
    ensures |KeysRead(visits)| == |visits| * limit
  {
    if visits == [] {
    } else {
      var n := |visits| - 1;
      var before := visits[..n];
      FullPagesCount(before, bucket, prefix, limit);
      assert (n + 1) * limit == n * limit + limit;
    }
  }

  lemma {:induction false} KeysReadElements<I>(visits: seq<Visit<I>>, k: bytes)
    ensures k in KeysRead(visits) <==> exists i :: 0 <= i < |visits| && k in visits[i].keys
  {
    if visits == [] {
    } else {
      var before := visits[..|visits| - 1];
      KeysReadElements(before, k);
      assert forall i :: 0 <= i < |before| ==> before[i] == visits[i];
    }
  }

  lemma ReadIsIndexed<I>(visits: seq<Visit<I>>, entries: set<bytes>, heads: bytes -> Head<I>, bucket: bytes,
      prefix: bytes, limit: nat)
    requires IsRun(visits, bucket, prefix, limit) && Unchanging(visits, entries, heads)
    ensures Elements(KeysRead(visits)) <= IndexedKeys(entries, bucket, prefix)
  {
    forall k | k in KeysRead(visits) ensures k in IndexedKeys(entries, bucket, prefix) {
      KeysReadElements(visits, k);
      var i :| 0 <= i < |visits| && k in visits[i].keys;
      PageKeys(visits, bucket, prefix, limit, i, k);
      MatchingMeans(entries, bucket, prefix, None, k);
    }
  }

  lemma AscendingSize(s: seq<bytes>)
    requires Ascending(s)
    ensures |Elements(s)| == |s|
  {
    forall i, j | 0 <= i < j < |s| ensures s[i] != s[j] {
      LessIrreflexive(s[i]);
    }
    DistinctSize(s);
  }

  /** Paging cannot go on for ever: a page with a cursor uses up `limit` keys. */
  lemma RunsEnd<I>(visits: seq<Visit<I>>, entries: set<bytes>, heads: bytes -> Head<I>, bucket: bytes,
      prefix: bytes, limit: nat)
    requires IsRun(visits, bucket, prefix, limit) && Unchanging(visits, entries, heads) && limit >= 1
    requires visits != [] && CursorAt(visits, |visits|).Some?
    ensures |visits| * limit <= |IndexedKeys(entries, bucket, prefix)|
  {
    FullPagesCount(visits, bucket, prefix, limit);
    KeysReadAscending(visits, bucket, prefix, limit);
    AscendingSize(KeysRead(visits));
    ReadIsIndexed(visits, entries, heads, bucket, prefix, limit);
    Sequences.SubsetSize(Elements(KeysRead(visits)), IndexedKeys(entries, bucket, prefix));
  }

  /** The range form always has a page to give. */
  lemma PageExists(partition: seq<bytes>, bucket: bytes, prefix: bytes, cursor: Option<bytes>, limit: nat)
    returns (keys: seq<bytes>)
    requires Ascending(partition)
    ensures IsPage(keys, Matching(Elements(partition), bucket, prefix, cursor), limit)
  {
    var all := KeysOf(Range(partition, LoBound(bucket, prefix, cursor), HiBoundOf(bucket, prefix)), bucket);
    RangeListsMatching(partition, bucket, prefix, cursor);
    keys := if |all| <= limit then all else all[..limit];
    FirstIsPage(all, keys, limit);
  }

  lemma {:induction false} NothingBroken<I>(keys: seq<bytes>, heads: bytes -> Head<I>)
    requires forall k :: !heads(k).Broken?
    ensures LiveItems(keys, heads).Ok?
  {
    if keys != [] {
      NothingBroken(keys[1..], heads);
    }
  }

  lemma PagesLeft<I>(visits: seq<Visit<I>>, entries: set<bytes>, heads: bytes -> Head<I>, bucket: bytes,
      prefix: bytes, limit: nat)
    requires IsRun(visits, bucket, prefix, limit) && Unchanging(visits, entries, heads) && limit >= 1
    requires visits != [] && CursorAt(visits, |visits|).Some?
    ensures |visits| <= |IndexedKeys(entries, bucket, prefix)|
  {
    RunsEnd(visits, entries, heads, bucket, prefix, limit);
    AtLeastOnce(|visits|, limit);
  }

  lemma AtLeastOnce(n: nat, limit: nat)
    requires limit >= 1
    ensures n <= n * limit
  {
    TimesMonotonic(1, limit, n);
    assert n * limit == limit * n;
  }

  lemma NextPage<I>(visits: seq<Visit<I>>, partition: seq<bytes>, heads: bytes -> Head<I>,
      bucket: bytes, prefix: bytes, limit: nat)
    returns (more: seq<Visit<I>>)
    requires Ascending(partition) && forall k :: !heads(k).Broken?
    requires IsRun(visits, bucket, prefix, limit)
    requires visits != [] ==> CursorAt(visits, |visits|).Some?
    ensures |more| == |visits| + 1 && more[..|visits|] == visits
    ensures more[|visits|].entries == Elements(partition) && more[|visits|].heads == heads
    ensures IsRun(more, bucket, prefix, limit)
  {
    var keys := PageExists(partition, bucket, prefix, CursorAt(visits, |visits|), limit);
    NothingBroken(keys, heads);
    LiveItemsElements(keys, heads);
    var next := if |keys| == limit && keys != [] then Some(keys[|keys| - 1]) else None;
    more := visits + [Visit(Elements(partition), heads, keys, Page(LiveItems(keys, heads).value, next))];
    assert more[..|visits|] == visits;
    assert CursorAt(more, |visits|) == CursorAt(visits, |visits|);
  }

  lemma UnchangingSnoc<I>(visits: seq<Visit<I>>, entries: set<bytes>, heads: bytes -> Head<I>, n: nat)
    requires |visits| == n + 1 && Unchanging(visits[..n], entries, heads)
    requires visits[n].entries == entries && visits[n].heads == heads
    ensures Unchanging(visits, entries, heads)
  {
    assert forall i :: 0 <= i < n ==> visits[..n][i] == visits[i];
  }

  /** Any run on an unchanging store without errors can be followed to its end. */
  lemma {:induction false} RunCompletes<I>(visits: seq<Visit<I>>, partition: seq<bytes>, heads: bytes -> Head<I>,
      bucket: bytes, prefix: bytes, limit: nat)
    returns (all: seq<Visit<I>>)
    requires Ascending(partition) && limit >= 1 && forall k :: !heads(k).Broken?
    requires IsRun(visits, bucket, prefix, limit) && Unchanging(visits, Elements(partition), heads)
    requires visits != [] ==> CursorAt(visits, |visits|).Some?
    ensures visits <= all
    ensures IsCompleteRun(all, bucket, prefix, limit) && Unchanging(all, Elements(partition), heads)
    decreases |IndexedKeys(Elements(partition), bucket, prefix)| - |visits|
  {
    all := NextPage(visits, partition, heads, bucket, prefix, limit);
    UnchangingSnoc(all, Elements(partition), heads, |visits|);
    if CursorAt(all, |all|).Some? {
      PagesLeft(all, Elements(partition), heads, bucket, prefix, limit);
      all := RunCompletes(all, partition, heads, bucket, prefix, limit);
    }
  }

  lemma AllRead<I>(visits: seq<Visit<I>>, entries: set<bytes>, heads: bytes -> Head<I>, bucket: bytes,
      prefix: bytes, limit: nat)
    requires IsCompleteRun(visits, bucket, prefix, limit) && Unchanging(visits, entries, heads) && limit >= 1
    ensures Elements(KeysRead(visits)) == IndexedKeys(entries, bucket, prefix)
  {
    ReadIsIndexed(visits, entries, heads, bucket, prefix, limit);
    forall k | k in IndexedKeys(entries, bucket, prefix) ensures k in KeysRead(visits) {
      MatchingMeans(entries, bucket, prefix, None, k);
      NothingSkipped(visits, bucket, prefix, limit, k);
      KeysReadElements(visits, k);
    }
  }

  /** On an unchanging store the concatenated pages are the live keys under the prefix, in order. */
  lemma StaticPagesListLiveKeys<I>(visits: seq<Visit<I>>, entries: set<bytes>, heads: bytes -> Head<I>,
      bucket: bytes, prefix: bytes, limit: nat)
    requires IsCompleteRun(visits, bucket, prefix, limit) && Unchanging(visits, entries, heads) && limit >= 1
    ensures Ascending(ItemKeys(Listed(visits)))
    ensures forall k :: k in ItemKeys(Listed(visits)) <==> Indexed(entries, bucket, prefix, k) && heads(k).Found?
  {
    ListedWithinRead(visits, bucket, prefix, limit);
    forall k ensures k in ItemKeys(Listed(visits)) <==> Indexed(entries, bucket, prefix, k) && heads(k).Found? {
      if k in ItemKeys(Listed(visits)) {
        PagesSound(visits, bucket, prefix, limit, k);
      }
      if Indexed(entries, bucket, prefix, k) && heads(k).Found? {
        PagesComplete(visits, bucket, prefix, limit, k);
      }
    }
  }

  lemma TimesMonotonic(a: nat, b: nat, limit: nat)
    requires a <= b
    ensures a * limit <= b * limit
  {
  }

  lemma QuotientOf(x: nat, limit: nat, q: nat)
    requires limit >= 1 && q * limit <= x < q * limit + limit
    ensures x / limit == q
  {
    var d := x / limit;
    assert x == d * limit + x % limit;
    if d < q {
      TimesMonotonic(d + 1, q, limit);
    } else if q < d {
      TimesMonotonic(q + 1, d, limit);
    }
  }

  /** A complete run on an unchanging store has exactly n / limit + 1 pages, n being the indexed keys. */
  lemma StaticPageCount<I>(visits: seq<Visit<I>>, entries: set<bytes>, heads: bytes -> Head<I>, bucket: bytes,
      prefix: bytes, limit: nat)
    requires IsCompleteRun(visits, bucket, prefix, limit) && Unchanging(visits, entries, heads) && limit >= 1
    ensures |visits| == |IndexedKeys(entries, bucket, prefix)| / limit + 1
  {
    var n := |visits| - 1;
    assert n > 0 ==> CursorAt(visits[..n], n) == CursorAt(visits, n);
    FullPagesCount(visits[..n], bucket, prefix, limit);
    KeysReadAscending(visits, bucket, prefix, limit);
    AscendingSize(KeysRead(visits));
    AllRead(visits, entries, heads, bucket, prefix, limit);
    QuotientOf(|KeysRead(visits)|, limit, n);
  }
}
