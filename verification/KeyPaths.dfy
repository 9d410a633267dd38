/** What a key resolves to on disk. */
module KeyPaths {
  import opened Types
  import opened FileTree
  import opened Keys
  import opened Sequences

  /** The pieces between slashes. */
  function Components(key: bytes): (cs: seq<bytes>)
    ensures cs != []
  {
    Split(key, SLASH)
  }

  /** The path below the bucket that a key leads to. */
  function Resolve(key: bytes): bytes {
    Join(Kept(Components(key), DOT))
  }

  /** `validate_key`. */
  predicate Accepted(key: bytes) {
    Acceptable(key, SLASH, 0, DOT)
  }

  /** An accepted key that is spelled as the path it leads to. */
  predicate Canonical(key: bytes) {
    Accepted(key) && Resolve(key) == key
  }

  /** The last piece is a name, so the key can lead to a file and not only to a directory. */
  predicate FileLike(key: bytes) {
    var cs := Components(key);
    var last := cs[|cs| - 1];
    last != [] && last != [DOT]
  }

  /** Pieces that count: nonempty, no single dots, no slashes. */
  predicate Pieces(cs: seq<bytes>) {
    forall i :: 0 <= i < |cs| ==> cs[i] != [] && cs[i] != [DOT] && SLASH !in cs[i]
  }

  /** A key can lead to a file unless it is empty, ends with a slash, or its last piece is a single dot. */
  lemma FileLikeExactly(key: bytes)
    ensures FileLike(key) <==>
            key != [] && key[|key| - 1] != SLASH && key != [DOT] && !EndsWith(key, [SLASH, DOT])
  {
    LastPiece(key, SLASH);
    var cs := Split(key, SLASH);
    var last := cs[|cs| - 1];
    assert Components(key) == cs;
    if EndsWith(key, [SLASH, DOT]) {
      assert key[|key| - 2] == key[|key| - 2..][0] == SLASH && key[|key| - 1] == key[|key| - 2..][1] == DOT;
    }
    if |cs| > 1 {
      var tail := [SLASH] + last;
      assert key[|key| - |tail|..] == tail;
      assert forall i :: 0 <= i < |tail| ==> key[|key| - |tail| + i] == key[|key| - |tail|..][i] == tail[i];
      assert last != [] ==> key[|key| - 1] == last[|last| - 1];
      assert |last| > 1 ==> key[|key| - 2] == last[|last| - 2];
    }
  }

  lemma {:induction false} ComponentsOfPath(path: seq<bytes>)
    requires path != [] && Pieces(path)
    ensures Components(Join(path)) == path
  {
    if |path| == 1 {
      SplitWithout(path[0], SLASH);
    } else {
      SplitConcat(path[0], Join(path[1..]), SLASH);
      SplitWithout(path[0], SLASH);
      ComponentsOfPath(path[1..]);
      assert [path[0]] + path[1..] == path;
    }
  }

  lemma {:induction false} KeptPath(path: seq<bytes>)
    requires Pieces(path)
    ensures Kept(path, DOT) == path
  {
    if path != [] {
      KeptPath(path[1..]);
      assert [path[0]] + path[1..] == path;
    }
  }

  /** A path below a bucket is its own key. */
  lemma PathResolves(path: seq<bytes>)
    requires ValidPath(path)
    ensures Resolve(Join(path)) == Join(path) && FileLike(Join(path))
  {
    assert Pieces(path);
    ComponentsOfPath(path);
    KeptPath(path);
  }

  lemma {:induction false} JoinHasNoNul(path: seq<bytes>)
    requires forall i :: 0 <= i < |path| ==> 0 !in path[i]
    ensures 0 !in Join(path)
  {
    if |path| > 1 {
      JoinHasNoNul(path[1..]);
    }
  }

  /** A path below a bucket passes validation. */
  lemma PathIsAccepted(path: seq<bytes>)
    requires ValidPath(path)
    ensures Accepted(Join(path))
  {
    ComponentsOfPath(path);
    JoinHasNoNul(path);
    assert path[0] != [] && SLASH !in path[0];
    assert Join(path)[0] == path[0][0];
  }

  /** A piece of a key that does no harm: a name, or nothing or a single dot, which do not count. */
  predicate Harmless(c: bytes) {
    c == [] || c == [DOT] || ValidName(c)
  }

  /** The keys that pass validation: not empty, not absolute, and no harm in any piece between slashes. */
  lemma AcceptedExactly(key: bytes)
    ensures Accepted(key) <==>
            key != [] && key[0] != SLASH && forall c :: c in Components(key) ==> Harmless(c)
  {
    var cs, nul: byte := Split(key, SLASH), 0;
    assert Components(key) == cs;
    PiecesHold(key, SLASH, nul);
    PiecesHaveNoSeparator(key, SLASH);
    if nul in key {
      var i :| 0 <= i < |cs| && nul in cs[i];
      assert cs[i] in Components(key) && !Harmless(cs[i]);
    }
    if [DOT, DOT] in cs {
      assert !Harmless([DOT, DOT]);
    }
    if Accepted(key) {
      forall c | c in Components(key) ensures Harmless(c) {
        var i :| 0 <= i < |cs| && cs[i] == c;
        assert nul in cs[i] ==> nul in key;
      }
    }
  }

  lemma {:induction false} KeptArePieces(cs: seq<bytes>)
    requires forall i :: 0 <= i < |cs| ==> SLASH !in cs[i]
    ensures Pieces(Kept(cs, DOT))
  {
    if cs != [] {
      KeptArePieces(cs[1..]);
    }
  }

  /** Resolving again changes nothing. */
  lemma ResolveIdempotent(key: bytes)
    requires Resolve(key) != []
    ensures Kept(Components(Resolve(key)), DOT) == Kept(Components(key), DOT) && Resolve(Resolve(key)) == Resolve(key)
  {
    PiecesHaveNoSeparator(key, SLASH);
    KeptArePieces(Components(key));
    ComponentsOfPath(Kept(Components(key), DOT));
    KeptPath(Kept(Components(key), DOT));
  }

  lemma CanonicalIsFileLike(key: bytes)
    requires Canonical(key)
    ensures FileLike(key)
  {
    PiecesHaveNoSeparator(key, SLASH);
    KeptArePieces(Components(key));
    ComponentsOfPath(Kept(Components(key), DOT));
  }

  lemma {:induction false} KeptConcat(a: seq<bytes>, b: seq<bytes>)
    ensures Kept(a + b, DOT) == Kept(a, DOT) + Kept(b, DOT)
  {
    if a == [] {
      assert a + b == b;
    } else {
      assert (a + b)[0] == a[0] && (a + b)[1..] == a[1..] + b;
      KeptConcat(a[1..], b);
      Regroup(Keep(a[0], DOT), Kept(a[1..], DOT), Kept(b, DOT));
    }
  }

  lemma {:induction false} LastIsKept(cs: seq<bytes>)
    requires cs != [] && cs[|cs| - 1] != [] && cs[|cs| - 1] != [DOT]
    ensures Kept(cs, DOT) != []
  {
    if |cs| > 1 {
      LastIsKept(cs[1..]);
    }
  }

  /** A key that goes on below the path it leads to goes nowhere: only slashes and dots can follow. */
  lemma NothingBelowItself(key: bytes, r: bytes)
    requires Resolve(key) != [] && key == Resolve(key) + [SLASH] + r
    ensures !FileLike(key)
  {
    var b := Resolve(key);
    SplitConcat(b, r, SLASH);
    ResolveIdempotent(key);
    KeptConcat(Components(b), Components(r));
    assert Kept(Components(r), DOT) == [] by {
      assert |Kept(Components(key), DOT)| == |Kept(Components(b), DOT)| + |Kept(Components(r), DOT)|;
    }
    LastPieceOf(b, r);
    if FileLike(r) {
      LastIsKept(Components(r));
    }
  }

  lemma LastPieceOf(a: bytes, r: bytes)
    ensures FileLike(a + [SLASH] + r) <==> FileLike(r)
  {
    SplitConcat(a, r, SLASH);
  }
}
