/**
 * Exactly which calls keep index and files in agreement, and runs of those that do not.
 */
module HandlerEffects {
  import opened Types
  import opened FileTree
  import opened KeyPaths
  import opened Keys
  import opened IndexAgreement

  /** Nothing runs, and the index holds exactly the files, each under its canonical key. */
  ghost predicate AtRest(s: State) {
    && s.running == map[] && s.files !! s.dirs && s.index == s.files
    && forall f :: f in s.files ==> Canonical(f)
  }

  /** The handler run on its own to its end: every effect that can succeed does. */
  function Alone(s: State, h: Handler): State
    requires s.running == map[] && h.stage.Started?
  {
    var s1 := Do(s, Begin(0, h));
    if !CanAdvance(s1, h) then DoFail(s1, 0)
    else
      var s2 := DoAdvance(s1, 0);
      if !CanAdvance(s2, s2.running[0]) then DoFail(s2, 0)
      else
        var s3 := DoAdvance(s2, 0);
        if h.Patch? then DoAdvance(s3, 0) else s3
  }

  /** A file can be put at the key's path: that is no directory, and nothing on the way to it is a file. */
  predicate Placeable(s: State, key: Key) {
    Accepted(key) && FileLike(key) && Free(s, Resolve(key))
  }

  predicate Free(s: State, path: Key) {
    path !in s.dirs && forall f :: f in s.files ==> !(f + [SLASH] <= path)
  }

  /** A PUT places the file and then the entry, or is refused. */
  lemma PutDoes(s: State, key: Key)
    requires AtRest(s)
    ensures var t := Alone(s, Put(key, Started));
            if Placeable(s, key) then t.files == s.files + {Resolve(key)} && t.index == s.index + {key}
            else t.files == s.files && t.index == s.index
  {
  }

  /** A DELETE removes file and entry, whether they are there or not, or is refused. */
  lemma DeleteDoes(s: State, key: Key)
    requires AtRest(s)
    ensures var t := Alone(s, Delete(key, Started));
            if Accepted(key) && Free(s, Resolve(key)) && (Resolve(key) in s.files ==> FileLike(key)) then
              t.files == s.files - {Resolve(key)} && t.index == s.index - {key}
            else t.files == s.files && t.index == s.index
  {
  }

  /** A completed upload is like a PUT whose entry is another's. */
  lemma CompleteDoes(s: State, at: Key, named: Key)
    requires AtRest(s)
    ensures var t := Alone(s, Complete(Some(at), Some(named), Started));
            if Placeable(s, at) then t.files == s.files + {Resolve(at)} && t.index == s.index + {named}
            else t.files == s.files && t.index == s.index
  {
  }

  lemma ProperMoveWorks(s: State, src: Key, dst: Key)
    requires AtRest(s) && src in s.files && Canonical(dst) && Free(s, dst) && src != dst
    ensures var t := Alone(s, Patch(src, dst, Started));
            t.files == s.files - {src} + {dst} && t.index == s.index - {src} + {dst}
  {
    CanonicalIsFileLike(src);
    CanonicalIsFileLike(dst);
    assert Resolve(src) == src && Resolve(dst) == dst;
    MoveAlone(s, src, dst);
  }

  /** A PUT keeps agreement exactly when it is refused or its key is canonical. */
  lemma PutKeepsAgreementExactly(s: State, key: Key)
    requires AtRest(s)
    ensures var t := Alone(s, Put(key, Started));
            t.index == t.files <==> (CanAdvance(s, Put(key, Started)) ==> Canonical(key))
  {
    if CanAdvance(s, Put(key, Started)) && !Canonical(key) {
      assert key !in s.files;
    }
  }

  /** The request names the object that the upload was initiated for, as its path is spelled. */
  predicate SameObject(at: Option<Key>, named: Option<Key>) {
    at.Some? && named.Some? && named.value == Resolve(at.value)
  }

  /**
   * A completed upload keeps agreement exactly when its file cannot be placed, its request names the path
   * it is placed at, or the keys concerned had objects before.
   */
  lemma CompleteKeepsAgreementExactly(s: State, at: Option<Key>, named: Option<Key>)
    requires AtRest(s)
    ensures var t := Alone(s, Complete(at, named, Started));
            t.index == t.files <==>
            || !CanAdvance(s, Complete(at, named, Started)) || SameObject(at, named)
            || ((at.Some? ==> Resolve(at.value) in s.files) && (named.Some? ==> named.value in s.files))
  {
    var t := Alone(s, Complete(at, named, Started));
    if CanAdvance(s, Complete(at, named, Started)) {
      var placed := if at.Some? then {Resolve(at.value)} else {};
      assert t.files == s.files + placed && t.index == s.index + KeysOf(named);
      if at.Some? && Resolve(at.value) !in s.files && !SameObject(at, named) {
        assert Resolve(at.value) in t.files && Resolve(at.value) !in t.index;
      } else if named.Some? && named.value !in s.files && !SameObject(at, named) {
        assert named.value in t.index && named.value !in t.files;
      }
    }
  }

  /**
   * Completed under another key than it was initiated for, without failure or overlap: the object is there
   * and not listed, the other key is listed and not there.
   */
  lemma CompletedUnderAnotherKey(s: State, at: Key, named: Key) returns (steps: seq<Step>, t: State)
    requires AtRest(s) && Canonical(at) && CanPlace(s, at) && at != named && at !in s.files && named !in s.files
    ensures Legal(s, steps) && Run(s, steps) == t && t.running == map[]
    ensures at in t.files && at !in t.index && named in t.index && named !in t.files
  {
    steps, t := AloneIsRun(s, Complete(Some(at), Some(named), Started));
  }

  /** A DELETE keeps agreement exactly when it is refused, its key is canonical, or there is no file. */
  lemma DeleteKeepsAgreementExactly(s: State, key: Key)
    requires AtRest(s)
    ensures var t := Alone(s, Delete(key, Started));
            t.index == t.files <==>
            (CanAdvance(s, Delete(key, Started)) && Resolve(key) in s.files ==> Canonical(key))
  {
    var t := Alone(s, Delete(key, Started));
    if CanAdvance(s, Delete(key, Started)) {
      assert t.index == s.index - {key} && t.files == s.files - {Resolve(key)};
      if !Canonical(key) {
        assert key !in s.index;
      }
    }
  }

  /** A file moves to its new key: the keys differ, and both are spelled as the paths they lead to. */
  predicate ProperMove(src: Key, dst: Key) {
    || (src != dst && Canonical(dst) && (Canonical(src) || Resolve(src) == Resolve(dst)))
    || (src == dst && !Canonical(src))
  }

  /**
   * A PATCH keeps agreement exactly in these cases. A file moves to another canonical key. A directory
   * "moves" onto itself. A move that fails was to a key that has an object.
   */
  lemma PatchKeepsAgreementExactly(s: State, src: Key, dst: Key)
    requires AtRest(s)
    ensures var t := Alone(s, Patch(src, dst, Started));
            t.index == t.files <==>
            if CanMoveFile(s, src, dst) then ProperMove(src, dst)
            else if CanMoveDir(s, src, dst) then src == dst
            else dst in s.files
  {
    if CanMoveFile(s, src, dst) {
      FileMoveExactly(s, src, dst);
    } else if CanMoveDir(s, src, dst) {
      DirectoryMoveExactly(s, src, dst);
    } else {
      assert Alone(s, Patch(src, dst, Started)).index == s.index + {dst};
      assert dst in s.index + {dst};
    }
  }

  lemma MoveAlone(s: State, src: Key, dst: Key)
    requires AtRest(s) && (CanMoveFile(s, src, dst) || CanMoveDir(s, src, dst))
    ensures var t := Alone(s, Patch(src, dst, Started));
            && t.index == s.index + {dst} - {src}
            && t.files == (if CanMoveFile(s, src, dst) then MoveFile(s, src, dst) else MoveDir(s, src, dst)).files
  {
  }

  lemma FileMoveExactly(s: State, src: Key, dst: Key)
    requires AtRest(s) && CanMoveFile(s, src, dst)
    ensures var t := Alone(s, Patch(src, dst, Started)); t.index == t.files <==> ProperMove(src, dst)
  {
    var t := Alone(s, Patch(src, dst, Started));
    var a, b := Resolve(src), Resolve(dst);
    MoveAlone(s, src, dst);
    assert Canonical(a);
    if src == dst {
      assert b in t.files;
      if !Canonical(src) {
        assert src !in s.index;
        assert t.index == s.index && t.files == s.files;
      }
    } else if Canonical(dst) {
      if !Canonical(src) && a != b {
        assert a in t.index && a !in t.files;
      }
    } else {
      assert dst in t.index;
      assert dst !in s.files && dst != b;
    }
  }

  lemma DirectoryMoveExactly(s: State, src: Key, dst: Key)
    requires AtRest(s) && CanMoveDir(s, src, dst) && !CanMoveFile(s, src, dst)
    ensures var t := Alone(s, Patch(src, dst, Started)); t.index == t.files <==> src == dst
  {
    var t := Alone(s, Patch(src, dst, Started));
    var a, b := Resolve(src), Resolve(dst);
    var moved := set f | f in s.files :: Relocate(f, a, b);
    MoveAlone(s, src, dst);
    assert t.files == moved;
    if src == dst {
      StaysPut(s.files, a);
      SrcIsNoFile(s, src);
    } else {
      assert dst in t.index;
      if dst in moved {
        forall f | f in s.files ensures dst != Relocate(f, a, b) {
          RelocatedIsElsewhere(s, a, dst, f);
        }
      }
    }
  }

  /** Renaming a directory to itself changes nothing. */
  lemma StaysPut(files: set<Key>, a: Key)
    ensures (set f | f in files :: Relocate(f, a, a)) == files
  {
    forall f ensures Relocate(f, a, a) == f {
      if Under(f, a) {
        assert f == a + f[|a|..];
      }
    }
  }

  lemma SrcIsNoFile(s: State, src: Key)
    requires AtRest(s) && Resolve(src) in s.dirs
    ensures src !in s.files
  {
  }

  /** What lands below a directory is not what that directory's own key is. */
  lemma StaysFileLike(f: Key, a: Key, b: Key, r: Key, dst: Key)
    requires f == a + [SLASH] + r && FileLike(f) && b == Resolve(dst) != []
    ensures dst != b + [SLASH] + r
  {
    LastPieceOf(a, r);
    LastPieceOf(b, r);
    if dst == b + [SLASH] + r {
      NothingBelowItself(dst, r);
    }
  }

  lemma MovedIsElsewhere(f: Key, a: Key, b: Key, dst: Key)
    requires Canonical(f) && Under(f, a) && b == Resolve(dst) != []
    ensures dst != Relocate(f, a, b)
  {
    var r := f[|a| + 1..];
    RelocatedUnder(f, a, b);
    assert f == a + [SLASH] + r;
    CanonicalIsFileLike(f);
    StaysFileLike(f, a, b, r, dst);
  }

  /** No file ends up at the path of the directory itself, nor under a key that is not canonical. */
  lemma RelocatedIsElsewhere(s: State, a: Key, dst: Key, f: Key)
    requires AtRest(s) && f in s.files && Resolve(dst) !in s.files && Resolve(dst) != []
    ensures dst != Relocate(f, a, Resolve(dst))
  {
    if Under(f, a) {
      MovedIsElsewhere(f, a, Resolve(dst), dst);
    }
  }

  // ---- Calls that fail half-way ----

  /** A PATCH that fails after its first or second effect leaves unsettled exactly the keys it leaves wrong. */
  lemma FailedPatchUnsettles(s: State, src: Key, dst: Key, moved: bool, k: Key)
    requires AtRest(s) && s.unsettled == {} && Canonical(src) && Canonical(dst) && src != dst
    requires moved ==> CanMoveFile(s, src, dst)
    ensures var s1 := DoAdvance(Do(s, Begin(0, Patch(src, dst, Started))), 0);
            var t := DoFail(if moved then DoAdvance(s1, 0) else s1, 0);
            t.running == map[] && (k in t.unsettled <==> !Agrees(t, k))
  {
  }

  // ---- Runs that break agreement ----

  /** One more step at the end of a run. */
  lemma {:induction false} RunOn(s: State, steps: seq<Step>, t: State, a: Step) returns (more: seq<Step>, u: State)
    requires Legal(s, steps) && Run(s, steps) == t && Can(t, a)
    ensures more == steps + [a] && Legal(s, more) && Run(s, more) == u == Do(t, a)
    ensures TameRun(s, more) <==> TameRun(s, steps) && Tame(t, a)
    decreases |steps|
  {
    more, u := steps + [a], Do(t, a);
    if steps == [] {
      assert more[1..] == [] && Legal(u, []);
    } else {
      var rest, v := RunOn(Do(s, steps[0]), steps[1..], t, a);
      assert more[1..] == rest;
    }
  }

  /** Canonical keys that are no lock files, no directory to be moved, and a completion under its own key. */
  predicate ProperCall(s: State, h: Handler) {
    match h
    case Put(key, _) => Proper(key)
    case Delete(key, _) => Proper(key)
    case Complete(at, named, _) => at == named && (at.Some? ==> Proper(at.value))
    case Patch(src, dst, _) => Proper(src) && Proper(dst) && Resolve(src) !in s.dirs
  }

  /** The handler on its own is a run of the machine, and a tame one if the call is proper. */
  lemma AloneIsRun(s: State, h: Handler) returns (steps: seq<Step>, t: State)
    requires s.running == map[] && h.stage.Started?
    ensures Legal(s, steps) && Run(s, steps) == t == Alone(s, h)
    ensures ProperCall(s, h) ==> TameRun(s, steps)
  {
    assert ProperCall(s, h) ==> Tame(s, Begin(0, h));
    steps, t := RunOn(s, [], s, Begin(0, h));
    if !CanAdvance(t, h) {
      steps, t := RunOn(s, steps, t, FailNow(0));
    } else {
      steps, t := RunOn(s, steps, t, Advance(0));
      if !CanAdvance(t, t.running[0]) {
        steps, t := RunOn(s, steps, t, FailNow(0));
      } else {
        steps, t := RunOn(s, steps, t, Advance(0));
        if h.Patch? {
          steps, t := RunOn(s, steps, t, Advance(0));
        }
      }
    }
  }

  /**
   * A PATCH of a directory moves every file below it and changes one entry: each of those files is
   * still indexed where it was and not indexed where it is.
   */
  lemma DirectoryPatchLosesFiles(s: State, src: Key, dst: Key, f: Key)
    requires AtRest(s) && CanMoveDir(s, src, dst) && !CanMoveFile(s, src, dst) && Resolve(src) != Resolve(dst)
    requires f in s.files && Under(f, Resolve(src)) && f != src
    ensures var t := Alone(s, Patch(src, dst, Started));
            var moved := Relocate(f, Resolve(src), Resolve(dst));
            f in t.index && f !in t.files && moved in t.files && (moved != dst ==> moved !in t.index)
  {
    var a, b := Resolve(src), Resolve(dst);
    var t := Alone(s, Patch(src, dst, Started));
    var files := set g | g in s.files :: Relocate(g, a, b);
    MoveAlone(s, src, dst);
    assert t.files == files;
    forall g | g in s.files ensures Relocate(g, a, b) != f {
      RelocatedApart(g, f, a, b);
    }
    RelocatedUnder(f, a, b);
    assert Relocate(f, a, b) !in s.files;
  }

  lemma RelocatedUnder(f: Key, a: Key, b: Key)
    requires Under(f, a)
    ensures Relocate(f, a, b) == b + [SLASH] + f[|a| + 1..] && Under(Relocate(f, a, b), b)
  {
    assert f == a + [SLASH] + f[|a| + 1..];
    assert f[|a|..] == [SLASH] + f[|a| + 1..];
    assert b + f[|a|..] == b + [SLASH] + f[|a| + 1..];
  }

  /** Nothing arrives at a place below the directory that has left. */
  lemma RelocatedApart(g: Key, f: Key, a: Key, b: Key)
    requires Under(f, a) && a != b && !Under(b, a) && !Under(f, b)
    ensures Relocate(g, a, b) != f
  {
    if Under(g, a) {
      RelocatedUnder(g, a, b);
    }
  }

  /** An entry spelled unlike its path outlives the file when that is deleted under its own name. */
  lemma AliasOutlivesItsFile(s: State, key: Key)
    requires AtRest(s) && CanAdvance(s, Put(key, Started)) && !Canonical(key) && Canonical(Resolve(key))
    ensures var t := Alone(Alone(s, Put(key, Started)), Delete(Resolve(key), Started));
            key in t.index && Resolve(key) !in t.files && !Exists(t, key)
  {
    var u := Alone(s, Put(key, Started));
    assert u.running == map[];
    assert key != Resolve(key);
    CanonicalIsFileLike(Resolve(key));
  }

  /** A double slash is such a spelling. */
  lemma DoubleSlashIsAlias(a: bytes, b: bytes)
    requires ValidPath([a, b])
    ensures Resolve(a + [SLASH, SLASH] + b) == Join([a, b]) != a + [SLASH, SLASH] + b
  {
    var path := [a, b];
    assert path[0] == a && path[1] == b;
    assert a + [SLASH, SLASH] + b == a + [SLASH] + ([] + [SLASH] + b);
    SplitConcat(a, [] + [SLASH] + b, SLASH);
    SplitConcat([], b, SLASH);
    SplitWithout(a, SLASH);
    SplitWithout(b, SLASH);
    var cs := Components(a + [SLASH, SLASH] + b);
    assert cs == [a] + ([[]] + [b]);
    KeptConcat([a], [[]] + [b]);
    KeptConcat([[]], [b]);
    KeptPath([a]);
    KeptPath([b]);
    var none: seq<bytes> := [[]];
    assert Kept(none, DOT) == [] by { assert none[1..] == []; }
    assert Kept(cs, DOT) == [a, b];
    assert [a, b][1..] == [b];
    assert |Join([a, b])| == |a| + 1 + |b|;
  }

  /** An If-Match PUT that fails after opening its lock file leaves it behind, unindexed. */
  lemma LockFileStays(s: State, key: Key) returns (steps: seq<Step>, t: State)
    requires AtRest(s) && LockFile(key) !in s.dirs && LockFile(key) !in s.files
    ensures Legal(s, steps) && Run(s, steps) == t && t.running == map[] && t.unsettled == s.unsettled
    ensures LockFile(key) in t.files && LockFile(key) !in t.index && IsLock(LockFile(key))
  {
    LockFileIsLock(key);
    var s1 := Do(s, Begin(0, Put(key, Started)));
    steps, t := RunOn(s, [], s, Begin(0, Put(key, Started)));
    assert MayLock(s1, 0);
    var s2 := Do(s1, Lock(0));
    steps, t := RunOn(s, steps, t, Lock(0));
    assert s2.running[0] == Put(key, Started) && s2.files == s.files + {LockFile(key)};
    steps, t := RunOn(s, steps, t, FailNow(0));
  }
}
