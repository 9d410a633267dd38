/** Which upload names lead where they do harm, and which do not. */
module AstrayNames {
  import opened Types
  import opened Decimal
  import opened Keys
  import opened TempFile
  import opened UploadPlaces
  import opened Multipart
  import opened MultipartRuns

  // ---- Names that lead elsewhere ----

  /** The path of an object: below a bucket of the data directory. */
  predicate IsObjectPath(env: Env, path: Place) {
    && env.data <= path && |path| > |env.data| + 1 && ValidBucketName(path[|env.data|])
  }

  /** A file in the directory of some other upload than the one at `q`. */
  predicate InOtherUpload(env: Env, path: Place, q: Place) {
    Root(env) <= path && |path| > |Root(env)| + 1 && path[..|Root(env)| + 1] != q
  }

  /** The place is above the uploads, inside another upload, or a bucket or below one. */
  predicate LeadsAstray(env: Env, q: Place) {
    || q <= Root(env)
    || (Root(env) <= q && |q| > |Root(env)| + 1)
    || (env.data <= q && |q| > |env.data| && ValidBucketName(q[|env.data|]))
  }

  /** Every abort of this name leaves all objects and all other uploads as they were. */
  ghost predicate AbortSpares(env: Env, id: UploadId) {
    forall s: Store, path :: AbortSparesIn(env, id, s, path)
  }

  predicate AbortSparesIn(env: Env, id: UploadId, s: Store, path: Place) {
    path in s.files && (IsObjectPath(env, path) || InOtherUpload(env, path, PlaceOf(Root(env), id))) ==>
      path in Apply(env, s, Abort(id)).0.files && Apply(env, s, Abort(id)).0.files[path] == s.files[path]
  }

  /** A store in which the name is reached and one file lies below it. */
  function Victim(env: Env, id: UploadId, path: Place): Store {
    var root := Root(env);
    Store(map[path := File([], None, None)], Passed(Start(root, id), Split(id, '/')) + {PlaceOf(root, id)})
  }

  lemma VictimIsLost(env: Env, id: UploadId, path: Place)
    requires PlaceOf(Root(env), id) < path
    requires IsObjectPath(env, path) || InOtherUpload(env, path, PlaceOf(Root(env), id))
    ensures !AbortSpares(env, id)
  {
    var s := Victim(env, id, path);
    FollowPassed(s.dirs, Start(Root(env), id), Split(id, '/'));
    assert Find(env, s, id) == Ok(PlaceOf(Root(env), id));
    assert PlaceOf(Root(env), id) !in s.files;
    assert !AbortSparesIn(env, id, s, path);
  }

  /** An astray place has a file below it that the abort takes along. */
  lemma AstrayHasVictim(env: Env, id: UploadId)
    requires LeadsAstray(env, PlaceOf(Root(env), id))
    ensures !AbortSpares(env, id)
  {
    var root := Root(env);
    var q := PlaceOf(root, id);
    if q <= root {
      var path := root + ["u", "1"];
      assert path[..|root| + 1] == root + ["u"];
      assert q <= path;
      assert |q| <= |root|;
      VictimIsLost(env, id, path);
    } else {
      var path := q + ["x"];
      if root <= q && |q| > |root| + 1 {
        assert path[..|root| + 1] == q[..|root| + 1] != q;
      } else {
        assert path[|env.data|] == q[|env.data|];
      }
      VictimIsLost(env, id, path);
    }
  }

  /**
   * Exactly which names an abort is safe for: it leaves every object and every other upload alone, in
   * every store, if and only if the name does not lead above the uploads, into another one or into a bucket.
   */
  lemma AbortSparesExactly(env: Env, id: UploadId)
    ensures AbortSpares(env, id) <==> !LeadsAstray(env, PlaceOf(Root(env), id))
  {
    var root := Root(env);
    var q := PlaceOf(root, id);
    if LeadsAstray(env, q) {
      AstrayHasVictim(env, id);
    } else {
      forall s: Store, path | path in s.files && (IsObjectPath(env, path) || InOtherUpload(env, path, q))
        ensures path in Apply(env, s, Abort(id)).0.files && Apply(env, s, Abort(id)).0.files[path] == s.files[path]
      {
        ReachIsPlace(s.dirs, root, id);
        if q <= path {
          ReachingIsAstray(env, q, path);
        }
      }
      assert forall s: Store, path :: AbortSparesIn(env, id, s, path);
    }
  }

  /** A place that reaches an object or another upload is astray. */
  lemma ReachingIsAstray(env: Env, q: Place, path: Place)
    requires q <= path && (IsObjectPath(env, path) || InOtherUpload(env, path, q))
    ensures LeadsAstray(env, q)
  {
    var root := Root(env);
    assert q == path[..|q|];
    if IsObjectPath(env, path) {
      assert env.data == path[..|env.data|];
      if |q| > |env.data| {
        assert env.data == q[..|env.data|] && q[|env.data|] == path[|env.data|];
      } else {
        assert q <= root;
      }
    } else {
      assert root == path[..|root|];
      if |q| > |root| {
        assert root == q[..|root|];
      } else {
        assert q == root[..|q|];
      }
    }
  }

  /** A plain name, as every fresh one is, is safe, and so are its other spellings. */
  lemma UploadPlacesAreSafe(env: Env, id: UploadId)
    requires IsUploadPlace(Root(env), PlaceOf(Root(env), id))
    ensures AbortSpares(env, id)
  {
    AbortSparesExactly(env, id);
    var q := PlaceOf(Root(env), id);
    assert q[|env.data|] == Root(env)[|env.data|] == MULTIPART;
  }

  /** The abort that goes wrong: double dots and the name of a bucket take all of the bucket's objects. */
  lemma BucketAborted(env: Env, s: Store, bucket: string, path: Place)
    requires ValidBucketName(bucket) && env.data in s.dirs && Root(env) in s.dirs && env.data + [bucket] in s.dirs
    requires env.data + [bucket] !in s.files && env.data + [bucket] <= path
    ensures var (t, outcome) := Apply(env, s, Abort("../" + bucket));
            outcome == Aborted && path !in t.files && !AbortSpares(env, "../" + bucket)
  {
    var id, root := "../" + bucket, Root(env);
    ParentSpelling(root, bucket);
    assert root[..|root| - 1] == env.data;
    assert id == ".." + ['/'] + bucket;
    SplitConcat("..", bucket, '/');
    SplitWithout("..", '/');
    SplitWithout(bucket, '/');
    assert Split(id, '/') == ["..", bucket] && Split(id, '/')[1..] == [bucket] && [bucket][1..] == [];
    assert Follow(s.dirs, env.data, [bucket]) == Follow(s.dirs, env.data + [bucket], []);
    assert Reach(s.dirs, root, id) == Some(env.data + [bucket]);
    AbortSparesExactly(env, id);
    assert (env.data + [bucket])[|env.data|] == bucket;
  }

  /** Every upload of a part under this name and number leaves all objects and all other uploads alone. */
  ghost predicate WriteSpares(env: Env, id: UploadId, number: nat) {
    forall s: Store, body, path :: WriteSparesIn(env, id, number, s, body, path)
  }

  predicate WriteSparesIn(env: Env, id: UploadId, number: nat, s: Store, body: bytes, path: Place) {
    IsObjectPath(env, path) || InOtherUpload(env, path, PlaceOf(Root(env), id)) ==>
      var t := Apply(env, s, WritePart(id, number, body)).0;
      (path in t.files <==> path in s.files) && (path in t.files ==> t.files[path] == s.files[path])
  }

  /**
   * Exactly when a part upload is safe: the path it writes is no object's and in no other upload, or the
   * name passes through that path as a directory, so that the rename fails.
   */
  lemma WriteSparesExactly(env: Env, id: UploadId, number: nat)
    requires 1 <= number <= 10_000
    ensures var q := PlaceOf(Root(env), id);
            var path := PartPath(q, number);
            WriteSpares(env, id, number) <==>
            (!IsObjectPath(env, path) && !InOtherUpload(env, path, q))
            || path in Passed(Start(Root(env), id), Split(id, '/'))
  {
    var root := Root(env);
    var q := PlaceOf(root, id);
    var path := PartPath(q, number);
    var passed := Passed(Start(root, id), Split(id, '/'));
    if (IsObjectPath(env, path) || InOtherUpload(env, path, q)) && path !in passed {
      var s := Store(map[], passed + {q});
      FollowPassed(s.dirs, Start(root, id), Split(id, '/'));
      assert !WriteSparesIn(env, id, number, s, [], path);
    } else {
      forall s: Store, body, other ensures WriteSparesIn(env, id, number, s, body, other) {
        ReachIsPlace(s.dirs, root, id);
        if Reach(s.dirs, root, id).Some? {
          FollowNeedsPassed(s.dirs, Start(root, id), Split(id, '/'));
        }
      }
    }
  }
}
