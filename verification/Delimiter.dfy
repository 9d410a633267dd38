/** Rolling a listing up at a delimiter into contents and common prefixes. */
module Delimiter {
  import opened Types
  import opened ByteStrings
  import opened ListingIndex
  import opened Paging

  predicate OccursAt(s: bytes, d: bytes, i: nat) {
    i + |d| <= |s| && s[i..i + |d|] == d
  }

  /** Offset of the first occurrence of `d` in `s`. */
  function Find(s: bytes, d: bytes): (r: Option<nat>)
    ensures r.Some? ==> OccursAt(s, d, r.value)
  {
    FindFrom(s, d, 0)
  }

  function FindFrom(s: bytes, d: bytes, from: nat): (r: Option<nat>)
    requires from <= |s|
    ensures r.Some? ==> OccursAt(s, d, r.value)
    decreases |s| - from
  {
    if OccursAt(s, d, from) then Some(from)
    else if from == |s| then None
    else FindFrom(s, d, from + 1)
  }

  lemma {:induction false} FindFromIsFirst(s: bytes, d: bytes, from: nat)
    requires from <= |s|
    ensures var r := FindFrom(s, d, from);
            forall i :: from <= i < (if r.Some? then r.value else |s| + 1) ==> !OccursAt(s, d, i)
    decreases |s| - from
  {
    if !OccursAt(s, d, from) && from < |s| {
      FindFromIsFirst(s, d, from + 1);
    }
  }

  /** `Find` reports the first occurrence, and none only when there is none. */
  lemma FindIs(s: bytes, d: bytes, n: nat)
    ensures Find(s, d) == Some(n) <==> OccursAt(s, d, n) && forall i :: 0 <= i < n ==> !OccursAt(s, d, i)
    ensures Find(s, d) == None <==> forall i :: 0 <= i <= |s| ==> !OccursAt(s, d, i)
  {
    FindFromIsFirst(s, d, 0);
  }

  /** The common prefix a key is rolled up into, if the delimiter occurs after the prefix. */
  function Group(prefix: bytes, delimiter: bytes, key: bytes): Option<bytes> {
    if !(prefix <= key) then None
    else
      match Find(key[|prefix|..], delimiter)
      case None => None
      case Some(i) => Some(key[..|prefix| + i + |delimiter|])
  }

  function Contents<I>(prefix: bytes, delimiter: bytes, items: seq<Item<I>>): seq<Item<I>> {
    if items == [] then []
    else
      var before, last := Contents(prefix, delimiter, items[..|items| - 1]), items[|items| - 1];
      if Group(prefix, delimiter, last.key).None? then before + [last] else before
  }

  ghost function Groups<I>(prefix: bytes, delimiter: bytes, items: seq<Item<I>>): set<bytes> {
    set it | it in items && Group(prefix, delimiter, it.key).Some? :: Group(prefix, delimiter, it.key).value
  }

  lemma RollUpStep<I>(prefix: bytes, delimiter: bytes, items: seq<Item<I>>, n: nat)
    requires n < |items|
    ensures var group := Group(prefix, delimiter, items[n].key);
            && Contents(prefix, delimiter, items[..n + 1])
               == Contents(prefix, delimiter, items[..n]) + (if group.None? then [items[n]] else [])
            && Groups(prefix, delimiter, items[..n + 1])
               == Groups(prefix, delimiter, items[..n]) + (if group.None? then {} else {group.value})
  {
    assert items[..n + 1][..n] == items[..n];
    assert items[..n + 1] == items[..n] + [items[n]];
    GroupsConcat(prefix, delimiter, items[..n], [items[n]]);
    GroupsOne(prefix, delimiter, items[n]);
  }

  lemma GroupsOne<I>(prefix: bytes, delimiter: bytes, it: Item<I>)
    ensures var group := Group(prefix, delimiter, it.key);
            Groups(prefix, delimiter, [it]) == if group.None? then {} else {group.value}
  {
    assert it in [it];
  }

  /** Walks the items once; the set of prefixes is kept sorted, as a `BTreeSet` is. */
  method Collapse<I>(prefix: bytes, delimiter: bytes, items: seq<Item<I>>)
    returns (contents: seq<Item<I>>, prefixes: seq<bytes>)
    ensures contents == Contents(prefix, delimiter, items)
    ensures Ascending(prefixes) && Elements(prefixes) == Groups(prefix, delimiter, items)
  {
    contents := [];
    prefixes := [];
    ghost var seen: set<bytes> := {};
    for i := 0 to |items|
      invariant contents == Contents(prefix, delimiter, items[..i])
      invariant Ascending(prefixes) && Elements(prefixes) == seen
      invariant seen == Groups(prefix, delimiter, items[..i])
    {
      var item := items[i];
      RollUpStep(prefix, delimiter, items, i);
      if !(prefix <= item.key) {
        contents := contents + [item];
      } else {
        var afterPrefix := item.key[|prefix|..];
        match Find(afterPrefix, delimiter)
        case Some(idx) =>
          var group := item.key[..|prefix| + idx + |delimiter|];
          assert Group(prefix, delimiter, item.key) == Some(group);
          InsertSortedElements(prefixes, group);
          prefixes := InsertSorted(prefixes, group);
          seen := seen + {group};
        case None =>
          assert Group(prefix, delimiter, item.key) == None;
          contents := contents + [item];
      }
    }
    assert items[..|items|] == items;
  }

  lemma SameOccurrence(a: bytes, b: bytes, d: bytes, upTo: nat, i: nat)
    requires upTo <= |a| && upTo <= |b| && a[..upTo] == b[..upTo] && i + |d| <= upTo
    ensures OccursAt(a, d, i) <==> OccursAt(b, d, i)
  {
    assert a[i..i + |d|] == a[..upTo][i..i + |d|];
    assert b[i..i + |d|] == b[..upTo][i..i + |d|];
  }

  /** The first occurrence is found again in any string that shares it. */
  lemma FindShared(a: bytes, b: bytes, d: bytes, n: nat)
    requires Find(b, d) == Some(n) && n + |d| <= |a| && a[..n + |d|] == b[..n + |d|]
    ensures Find(a, d) == Some(n)
  {
    FindIs(b, d, n);
    FindIs(a, d, n);
    forall i | 0 <= i <= n ensures OccursAt(a, d, i) <==> OccursAt(b, d, i) {
      SameOccurrence(a, b, d, n + |d|, i);
    }
  }

  lemma SharedMiddle(a: bytes, b: bytes, g: bytes, from: nat)
    requires g <= a && g <= b && from <= |g|
    ensures a[from..][..|g| - from] == b[from..][..|g| - from]
    ensures a[..from] == b[..from]
  {
    assert a[..|g|] == g == b[..|g|];
    assert a[from..][..|g| - from] == a[..|g|][from..];
    assert b[from..][..|g| - from] == b[..|g|][from..];
    assert a[..from] == a[..|g|][..from];
    assert b[..from] == b[..|g|][..from];
  }

  /** A key that starts with another key's group has that very group. */
  lemma GroupUnique(prefix: bytes, delimiter: bytes, key: bytes, other: bytes)
    requires Group(prefix, delimiter, other).Some? && Group(prefix, delimiter, other).value <= key
    ensures Group(prefix, delimiter, key) == Group(prefix, delimiter, other)
  {
    var g := Group(prefix, delimiter, other).value;
    var n := Find(other[|prefix|..], delimiter).value;
    SharedMiddle(key, other, g, |prefix|);
    assert prefix == other[..|prefix|] == key[..|prefix|];
    assert key[..|g|] == g;
    FindShared(key[|prefix|..], other[|prefix|..], delimiter, n);
  }

  lemma {:induction false} ContentsElements<I>(prefix: bytes, delimiter: bytes, items: seq<Item<I>>, it: Item<I>)
    ensures it in Contents(prefix, delimiter, items) <==> it in items && Group(prefix, delimiter, it.key).None?
  {
    if items == [] {
    } else {
      var init := items[..|items| - 1];
      ContentsElements(prefix, delimiter, init, it);
      assert items == init + [items[|items| - 1]];
    }
  }

  /** A key has no group when it lacks the prefix, or the delimiter after it. */
  lemma NoGroup(prefix: bytes, delimiter: bytes, key: bytes)
    ensures Group(prefix, delimiter, key).None? <==>
            !(prefix <= key) || forall i :: 0 <= i <= |key| - |prefix| ==> !OccursAt(key[|prefix|..], delimiter, i)
  {
    if prefix <= key {
      FindIs(key[|prefix|..], delimiter, 0);
    }
  }

  lemma OwnGroupOnly<I>(prefix: bytes, delimiter: bytes, items: seq<Item<I>>, it: Item<I>, g: bytes)
    requires it in items
    ensures g in Groups(prefix, delimiter, items) && g <= it.key <==> Group(prefix, delimiter, it.key) == Some(g)
  {
    if g in Groups(prefix, delimiter, items) && g <= it.key {
      var other :| other in items && Group(prefix, delimiter, other.key) == Some(g);
      GroupUnique(prefix, delimiter, it.key, other.key);
    }
  }

  /**
   * Roll-up is exact: a listed key is in the contents when the delimiter does not occur after the
   * prefix, and then under no common prefix; otherwise it is under exactly one.
   */
  lemma RollUpExact<I>(prefix: bytes, delimiter: bytes, items: seq<Item<I>>, it: Item<I>)
    requires it in items
    ensures it in Contents(prefix, delimiter, items) <==>
            !(prefix <= it.key) || forall i :: 0 <= i <= |it.key| - |prefix| ==> !OccursAt(it.key[|prefix|..], delimiter, i)
    ensures it in Contents(prefix, delimiter, items) ==>
              forall g :: g in Groups(prefix, delimiter, items) ==> !(g <= it.key)
    ensures it !in Contents(prefix, delimiter, items) ==>
              exists g :: g in Groups(prefix, delimiter, items) && g <= it.key
                          && forall h :: h in Groups(prefix, delimiter, items) && h <= it.key ==> h == g
  {
    ContentsElements(prefix, delimiter, items, it);
    NoGroup(prefix, delimiter, it.key);
    forall g
      ensures g in Groups(prefix, delimiter, items) && g <= it.key <==> Group(prefix, delimiter, it.key) == Some(g)
    {
      OwnGroupOnly(prefix, delimiter, items, it, g);
    }
    if it !in Contents(prefix, delimiter, items) {
      var g := Group(prefix, delimiter, it.key).value;
      assert g in Groups(prefix, delimiter, items) && g <= it.key;
    }
  }

  /** Common prefixes come from listed keys only. */
  lemma GroupsSound<I>(prefix: bytes, delimiter: bytes, items: seq<Item<I>>, g: bytes)
    requires g in Groups(prefix, delimiter, items)
    ensures prefix <= g && exists it :: it in items && g <= it.key
  {
    var it :| it in items && Group(prefix, delimiter, it.key) == Some(g);
    assert prefix <= it.key;
    assert g[..|prefix|] == it.key[..|prefix|] == prefix;
  }

  lemma GroupsConcat<I>(prefix: bytes, delimiter: bytes, a: seq<Item<I>>, b: seq<Item<I>>)
    ensures Groups(prefix, delimiter, a + b) == Groups(prefix, delimiter, a) + Groups(prefix, delimiter, b)
  {
  }

  lemma {:induction false} ContentsConcat<I>(prefix: bytes, delimiter: bytes, a: seq<Item<I>>, b: seq<Item<I>>)
    ensures Contents(prefix, delimiter, a + b) == Contents(prefix, delimiter, a) + Contents(prefix, delimiter, b)
  {
    if b == [] {
      assert a + b == a;
    } else {
      var init := b[..|b| - 1];
      ContentsConcat(prefix, delimiter, a, init);
      assert (a + b)[..|a + b| - 1] == a + init;
    }
  }

  function AllContents<I>(prefix: bytes, delimiter: bytes, visits: seq<Visit<I>>): seq<Item<I>> {
    if visits == [] then []
    else
      var last := visits[|visits| - 1];
      AllContents(prefix, delimiter, visits[..|visits| - 1])
      + Contents(prefix, delimiter, last.page.items)
  }

  ghost function AllGroups<I>(prefix: bytes, delimiter: bytes, visits: seq<Visit<I>>): set<bytes> {
    if visits == [] then {}
    else
      var last := visits[|visits| - 1];
      AllGroups(prefix, delimiter, visits[..|visits| - 1])
      + Groups(prefix, delimiter, last.page.items)
  }

  /**
   * Page independence: rolling up each page and putting the results together is rolling up the
   * whole listing, wherever the pages are cut.
   */
  lemma {:induction false} RollUpPageByPage<I>(prefix: bytes, delimiter: bytes, visits: seq<Visit<I>>)
    ensures AllContents(prefix, delimiter, visits) == Contents(prefix, delimiter, Listed(visits))
    ensures AllGroups(prefix, delimiter, visits) == Groups(prefix, delimiter, Listed(visits))
  {
    if visits == [] {
    } else {
      var init, last := visits[..|visits| - 1], visits[|visits| - 1];
      RollUpPageByPage(prefix, delimiter, init);
      var items := last.page.items;
      ContentsConcat(prefix, delimiter, Listed(init), items);
      GroupsConcat(prefix, delimiter, Listed(init), items);
    }
  }
}
