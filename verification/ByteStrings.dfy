/** Byte strings in the order in which the index stores them. */
module ByteStrings {
  import opened Types

  /** Lexicographic order, a proper prefix first. */
  predicate Less(a: bytes, b: bytes) {
    b != [] && (a == [] || a[0] < b[0] || (a[0] == b[0] && Less(a[1..], b[1..])))
  }

  lemma {:induction false} LessIrreflexive(a: bytes)
    ensures !Less(a, a)
  {
    if a != [] {
      LessIrreflexive(a[1..]);
    }
  }

  lemma {:induction false} LessTransitive(a: bytes, b: bytes, c: bytes)
    requires Less(a, b) && Less(b, c)
    ensures Less(a, c)
  {
    if a != [] && a[0] == b[0] == c[0] {
      LessTransitive(a[1..], b[1..], c[1..]);
    }
  }

  lemma {:induction false} LessTotal(a: bytes, b: bytes)
    ensures a == b || Less(a, b) || Less(b, a)
  {
    if a != [] && b != [] && a[0] == b[0] {
      LessTotal(a[1..], b[1..]);
    }
  }

  lemma LessAsymmetric(a: bytes, b: bytes)
    requires Less(a, b)
    ensures !Less(b, a)
  {
    if Less(b, a) {
      LessTransitive(a, b, a);
      LessIrreflexive(a);
    }
  }

  /** A common prefix does not matter to the order. */
  lemma {:induction false} LessAfterPrefix(p: bytes, a: bytes, b: bytes)
    ensures Less(p + a, p + b) <==> Less(a, b)
  {
    if p == [] {
      assert p + a == a && p + b == b;
    } else {
      assert (p + a)[1..] == p[1..] + a && (p + b)[1..] == p[1..] + b;
      LessAfterPrefix(p[1..], a, b);
    }
  }

  lemma SplitAtPrefix(p: bytes, k: bytes)
    requires p <= k
    ensures p + k[|p|..] == k
  {
  }

  /** No byte string lies strictly between `c` and `c` followed by a zero byte. */
  lemma {:induction false} NothingBetween(c: bytes, k: bytes)
    ensures Less(c, k) <==> !Less(k, c + [0])
  {
    if c == [] {
      assert c + [0] == [0];
    } else if k != [] && k[0] == c[0] {
      assert (c + [0])[1..] == c[1..] + [0];
      NothingBetween(c[1..], k[1..]);
    }
  }

  /** Strictly ascending, hence without repeats. */
  ghost predicate Ascending(s: seq<bytes>) {
    forall i, j :: 0 <= i < j < |s| ==> Less(s[i], s[j])
  }

  predicate Continuation(b: byte) {
    0x80 <= b <= 0xBF
  }

  /** Length of the UTF-8 sequence that a byte begins, 0 for a byte that begins none. */
  function Utf8Width(first: byte): nat {
    if first < 0x80 then 1
    else if 0xC2 <= first <= 0xDF then 2
    else if 0xE0 <= first <= 0xEF then 3
    else if 0xF0 <= first <= 0xF4 then 4
    else 0
  }

  /** The string begins with a well-formed sequence. */
  predicate BeginsUtf8(b: bytes)
    requires b != []
  {
    var n := Utf8Width(b[0]);
    && 1 <= n <= |b|
    && (forall i :: 1 <= i < n ==> Continuation(b[i]))
    && (b[0] == 0xE0 ==> 0xA0 <= b[1])
    && (b[0] == 0xED ==> b[1] <= 0x9F)
    && (b[0] == 0xF0 ==> 0x90 <= b[1])
    && (b[0] == 0xF4 ==> b[1] <= 0x8F)
  }

  /** Well-formed UTF-8, section 4 of RFC 3629. */
  predicate IsUtf8(b: bytes)
    decreases |b|
  {
    b == [] || (BeginsUtf8(b) && IsUtf8(b[Utf8Width(b[0])..]))
  }
}
