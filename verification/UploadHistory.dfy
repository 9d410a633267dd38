/**
 * What multipart uploads promise over whole runs: each upload is what its calls have made it, and a
 * completion publishes the parts last sent, under the name and metadata it was initiated with.
 */
module UploadHistory {
  import opened Types
  import opened Sequences
  import opened Etags
  import opened Decimal
  import opened Keys
  import opened TempFile
  import opened UploadPlaces
  import opened Multipart
  import opened MultipartRuns

  /** An upload as a client follows it: begun and not ended, what it was begun with, and the bodies sent. */
  datatype Upload = Upload(open: bool, meta: Option<Meta>, parts: map<nat, bytes>)

  /** What a call with this effect makes of the upload at a place. */
  function Follow(env: Env, u: Upload, effect: Effect, op: Op, q: Place): Upload {
    if OpPlace(env, op) != q then u
    else
      match effect
      case Began => if op.Init? && !op.crashed then u.(open := true, meta := Some(op.meta)) else u.(open := true)
      case Stored => if op.WritePart? then u.(parts := u.parts[op.number := op.body]) else u
      case Ended => Upload(false, None, map[])
      case Unchanged => u
  }

  /** The upload at a place after a run of calls, under whatever spelling they name it. */
  function History(env: Env, s: Store, ops: seq<Op>, q: Place): Upload {
    if ops == [] then Upload(q in s.dirs, None, map[])
    else
      var init, op := ops[..|ops| - 1], ops[|ops| - 1];
      Follow(env, History(env, s, init, q), EffectOf(env, Run(env, s, init), op), op, q)
  }

  ghost predicate PartsMirror(env: Env, s: Store, q: Place, parts: map<nat, bytes>) {
    forall n: nat {:trigger PartPath(q, n)} ::
      FileAt(s, PartPath(q, n)) == if n in parts then Some(PartFile(env, parts[n])) else None
  }

  predicate MetaMirrors(env: Env, s: Store, q: Place, meta: Option<Meta>) {
    FileAt(s, q + [META]) == if meta.Some? then Some(Sidecar(env, meta.value)) else None
  }

  ghost predicate NothingElse(s: Store, q: Place) {
    forall path :: path in s.files && q <= path ==> path == q + [META] || exists n: nat :: path == PartPath(q, n)
  }

  /** The upload's directory holds exactly the sidecar and the parts that its history has. */
  ghost predicate Mirrors(env: Env, s: Store, q: Place, u: Upload) {
    && (q in s.dirs <==> u.open) && MetaMirrors(env, s, q, u.meta) && PartsMirror(env, s, q, u.parts)
    && NothingElse(s, q) && (u.meta.Some? ==> ValidMeta(u.meta.value))
    && forall n :: n in u.parts ==> 1 <= n <= 10_000
  }

  /** A part, a call with any effect, and the file at the part's path afterwards. */
  lemma PartAfter(env: Env, u: Upload, effect: Effect, op: Op, q: Place, n: nat, before: Option<File>)
    requires Respects(env, op) && IsUploadPlace(Root(env), q)
    requires before == if n in u.parts then Some(PartFile(env, u.parts[n])) else None
    ensures FileAfter(env, effect, op, PartPath(q, n), before) ==
            var parts := Follow(env, u, effect, op, q).parts; if n in parts then Some(PartFile(env, parts[n])) else None
  {
    assert q <= PartPath(q, n);
    MetaIsNoPart(OpPlace(env, op), q, n);
    if op.WritePart? && PartPath(q, n) == PartPath(OpPlace(env, op), op.number) {
      PartPathInjective(q, n, OpPlace(env, op), op.number);
    }
    BelowOnePlace(env, OpPlace(env, op), q, PartPath(q, n));
  }

  lemma MetaAfter(env: Env, u: Upload, effect: Effect, op: Op, q: Place, before: Option<File>)
    requires Respects(env, op) && IsUploadPlace(Root(env), q)
    requires before == if u.meta.Some? then Some(Sidecar(env, u.meta.value)) else None
    ensures FileAfter(env, effect, op, q + [META], before) ==
            var meta := Follow(env, u, effect, op, q).meta; if meta.Some? then Some(Sidecar(env, meta.value)) else None
  {
    assert q <= q + [META];
    if op.WritePart? {
      MetaIsNoPart(q, OpPlace(env, op), op.number);
    }
    BelowOnePlace(env, OpPlace(env, op), q, q + [META]);
    assert (q + [META])[..|q|] == q && (OpPlace(env, op) + [META])[..|q|] == OpPlace(env, op);
  }

  lemma PartsStep(env: Env, s: Store, u: Upload, op: Op, q: Place)
    requires Sane(env, s) && Respects(env, op) && IsUploadPlace(Root(env), q) && PartsMirror(env, s, q, u.parts)
    ensures PartsMirror(env, Apply(env, s, op).0, q, Follow(env, u, EffectOf(env, s, op), op, q).parts)
  {
    var t, v := Apply(env, s, op).0, Follow(env, u, EffectOf(env, s, op), op, q);
    forall n: nat {:trigger PartPath(q, n)}
      ensures FileAt(t, PartPath(q, n)) == if n in v.parts then Some(PartFile(env, v.parts[n])) else None
    {
      assert Root(env) <= PartPath(q, n);
      StepInside(env, s, op, PartPath(q, n), q);
      PartAfter(env, u, EffectOf(env, s, op), op, q, n, FileAt(s, PartPath(q, n)));
    }
  }

  lemma NothingElseStep(env: Env, s: Store, op: Op, q: Place)
    requires Sane(env, s) && Respects(env, op) && IsUploadPlace(Root(env), q) && NothingElse(s, q)
    ensures NothingElse(Apply(env, s, op).0, q)
  {
    var t := Apply(env, s, op).0;
    forall path | path in t.files && q <= path ensures path == q + [META] || exists n: nat :: path == PartPath(q, n) {
      StepInside(env, s, op, path, q);
      ElseAfter(env, s, EffectOf(env, s, op), op, q, path);
    }
  }

  lemma StepMirrors(env: Env, s: Store, u: Upload, op: Op, q: Place)
    requires Sane(env, s) && Respects(env, op) && IsUploadPlace(Root(env), q) && Mirrors(env, s, q, u)
    ensures Mirrors(env, Apply(env, s, op).0, q, Follow(env, u, EffectOf(env, s, op), op, q))
  {
    assert Root(env) <= q + [META];
    AcceptedInitIsValid(env, s, op);
    AcceptedPartIsNumbered(env, s, op);
    StepInside(env, s, op, q + [META], q);
    MetaAfter(env, u, EffectOf(env, s, op), op, q, FileAt(s, q + [META]));
    PartsStep(env, s, u, op, q);
    NothingElseStep(env, s, op, q);
  }

  lemma AcceptedPartIsNumbered(env: Env, s: Store, op: Op)
    ensures EffectOf(env, s, op).Stored? ==> op.WritePart? && 1 <= op.number <= 10_000
  {
  }

  lemma ElseAfter(env: Env, s: Store, effect: Effect, op: Op, q: Place, path: Place)
    requires Respects(env, op) && IsUploadPlace(Root(env), q) && NothingElse(s, q) && q <= path
    requires FileAfter(env, effect, op, path, FileAt(s, path)).Some?
    ensures path == q + [META] || exists n: nat :: path == PartPath(q, n)
  {
    BelowOnePlace(env, OpPlace(env, op), q, path);
    assert OpPlace(env, op) <= OpPlace(env, op) + [META];
    if op.WritePart? {
      assert OpPlace(env, op) <= PartPath(OpPlace(env, op), op.number);
    }
  }

  /** A path is below the place of one upload only. */
  lemma BelowOnePlace(env: Env, p: Place, q: Place, path: Place)
    requires IsUploadPlace(Root(env), p) && IsUploadPlace(Root(env), q) && q <= path
    ensures p <= path ==> p == q
  {
    assert p <= path ==> p == path[..|p|];
    assert q == path[..|q|];
  }

  /**
   * After every run of calls whose names lead to upload directories, from a store without uploads: the
   * directory of an upload holds exactly the last body accepted for each part since it was last begun
   * anew, under that body's own tag, and the metadata it was begun with.
   */
  lemma {:induction false} StoredPartsAreLatest(env: Env, s: Store, ops: seq<Op>, q: Place)
    requires Lossless(env) && NothingUploaded(env, s) && AllRespect(env, ops) && IsUploadPlace(Root(env), q)
    ensures Mirrors(env, Run(env, s, ops), q, History(env, s, ops, q))
  {
    if ops == [] {
      assert Root(env) <= q + [META];
      forall n ensures PartPath(q, n) !in s.files {
        assert Root(env) <= PartPath(q, n);
      }
    } else {
      var init, op := ops[..|ops| - 1], ops[|ops| - 1];
      assert forall i :: 0 <= i < |init| ==> init[i] == ops[i];
      StoredPartsAreLatest(env, s, init, q);
      RunKeepsSane(env, s, init);
      StepMirrors(env, Run(env, s, init), History(env, s, init, q), op, q);
    }
  }

  // ---- The answers of the calls ----

  /** The name leads to the upload, which is open. */
  predicate Reaches(env: Env, s: Store, u: Upload, id: UploadId) {
    Reach(s.dirs, Root(env), id).Some? && u.open
  }

  function NotThere(env: Env, s: Store, id: UploadId): StorageError {
    if PassesFile(env, s, id) then IoError else UploadNotFound
  }

  lemma FoundExactly(env: Env, s: Store, u: Upload, id: UploadId)
    requires Sane(env, s) && IsUploadPlace(Root(env), PlaceOf(Root(env), id))
    requires Mirrors(env, s, PlaceOf(Root(env), id), u)
    ensures Find(env, s, id) ==
            if Reaches(env, s, u, id) then Ok(PlaceOf(Root(env), id)) else Err(NotThere(env, s, id))
    ensures PlaceOf(Root(env), id) !in s.files
  {
    ReachIsPlace(s.dirs, Root(env), id);
    NoFileAt(env, s, PlaceOf(Root(env), id));
    if Reach(s.dirs, Root(env), id).Some? {
      FollowIsNotBlocked(s.files.Keys, s.dirs, Start(Root(env), id), Split(id, '/'));
    }
  }

  /** A part is accepted exactly for a number in range and an open upload, whether it was sent before or not. */
  lemma PartAcceptedExactly(env: Env, s: Store, u: Upload, id: UploadId, number: nat, body: bytes)
    requires Sane(env, s) && IsUploadPlace(Root(env), PlaceOf(Root(env), id))
    requires Mirrors(env, s, PlaceOf(Root(env), id), u)
    ensures var q := PlaceOf(Root(env), id);
            var (t, outcome) := Apply(env, s, WritePart(id, number, body));
            && outcome == (if !(1 <= number <= 10_000) then Rejected(InvalidPart)
                           else if !Reaches(env, s, u, id) then Rejected(NotThere(env, s, id))
                           else if PartPath(q, number) in s.dirs then Rejected(IoError)
                           else Written("\"" + HexEncode(env.md5(body)) + "\""))
            && (outcome.Rejected? ==> t == s)
            && (outcome.Written? ==> Mirrors(env, t, q, u.(parts := u.parts[number := body])))
  {
    FoundExactly(env, s, u, id);
    StepMirrors(env, s, u, WritePart(id, number, body), PlaceOf(Root(env), id));
  }

  ghost predicate IsPartOf(q: Place, u: Upload, path: Place) {
    exists n :: n in u.parts && path == PartPath(q, n)
  }

  lemma DirectFiles(env: Env, s: Store, u: Upload, q: Place, path: Place)
    requires Mirrors(env, s, q, u)
    ensures path in s.files && path != [] && Up(path) == q && path != q + [META] <==> IsPartOf(q, u, path)
  {
    if path in s.files && path != [] && Up(path) == q && path != q + [META] {
      assert path == q + [path[|path| - 1]];
      var n: nat :| path == PartPath(q, n);
      assert n in u.parts;
    }
    if IsPartOf(q, u, path) {
      var n :| n in u.parts && path == PartPath(q, n);
      assert FileAt(s, PartPath(q, n)).Some?;
      MetaIsNoPart(q, q, n);
    }
  }

  /** A listing shows exactly the parts, each under its number with its body's tag. */
  lemma ListingShowsParts(env: Env, s: Store, u: Upload, id: UploadId)
    requires Sane(env, s) && IsUploadPlace(Root(env), PlaceOf(Root(env), id))
    requires Mirrors(env, s, PlaceOf(Root(env), id), u)
    ensures var q := PlaceOf(Root(env), id);
            var (t, outcome) := Apply(env, s, ListParts(id));
            && t == s
            && (!Reaches(env, s, u, id) ==> outcome == Rejected(NotThere(env, s, id)))
            && (Reaches(env, s, u, id) ==>
                  && outcome.Listed? && (forall path :: path in outcome.parts <==> IsPartOf(q, u, path))
                  && forall n :: n in u.parts ==>
                       PartPath(q, n) in outcome.parts && outcome.parts[PartPath(q, n)] == PartFile(env, u.parts[n]))
  {
    var q := PlaceOf(Root(env), id);
    FoundExactly(env, s, u, id);
    forall path
      ensures path in s.files && path != [] && Up(path) == q && path != q + [META] <==> IsPartOf(q, u, path)
    {
      DirectFiles(env, s, u, q, path);
    }
    var outcome := Apply(env, s, ListParts(id)).1;
    if Reaches(env, s, u, id) {
      forall n | n in u.parts
        ensures PartPath(q, n) in outcome.parts && outcome.parts[PartPath(q, n)] == PartFile(env, u.parts[n])
      {
        assert IsPartOf(q, u, PartPath(q, n));
        assert FileAt(s, PartPath(q, n)) == Some(PartFile(env, u.parts[n]));
      }
    }
  }

  // ---- Completion ----

  /** Numbers above zero, each above the one before. */
  predicate InOrder(list: seq<CompletedPart>) {
    list != [] && list[0].number > 0 && forall i :: 0 < i < |list| ==> list[i - 1].number < list[i].number
  }

  predicate SentAs(env: Env, u: Upload, p: CompletedPart) {
    p.number in u.parts && p.etag == "\"" + HexEncode(env.md5(u.parts[p.number])) + "\""
  }

  /** Each listed part has been sent, and last as a body with the listed tag. */
  predicate AllSent(env: Env, u: Upload, list: seq<CompletedPart>) {
    forall i :: 0 <= i < |list| ==> SentAs(env, u, list[i])
  }

  function Bodies(env: Env, u: Upload, list: seq<CompletedPart>): (bodies: seq<bytes>)
    requires AllSent(env, u, list)
    ensures |bodies| == |list| && forall i :: 0 <= i < |list| ==>
              list[i].number in u.parts && bodies[i] == u.parts[list[i].number]
  {
    seq(|list|, i requires 0 <= i < |list| => assert SentAs(env, u, list[i]); u.parts[list[i].number])
  }

  /** The object's path is free of directories, and no ancestor of it is a file. */
  predicate Room(env: Env, s: Store, meta: Meta) {
    var path, pieces := ObjectPlace(env, meta), Split(meta.key, '/');
    && pieces[|pieces| - 1] != "" && pieces[|pieces| - 1] != "."
    && path !in s.dirs && forall i :: 0 <= i < |path| ==> path[..i] !in s.files
  }

  /** A listed part yields its bytes and their raw digest, or the error for a part that is missing or different. */
  lemma FetchSent(env: Env, s: Store, u: Upload, q: Place, p: CompletedPart)
    requires Mirrors(env, s, q, u)
    ensures Fetch(s, q, p) ==
            if SentAs(env, u, p) then Ok((u.parts[p.number], env.md5(u.parts[p.number])))
            else Err(if p.number !in u.parts && PartPath(q, p.number) !in s.dirs then XattrError else InvalidPart)
  {
    assert FileAt(s, PartPath(q, p.number)) == if p.number in u.parts then Some(PartFile(env, u.parts[p.number])) else None;
    if p.number in u.parts {
      EtagRoundTrip(env.md5, u.parts[p.number]);
    }
  }

  lemma OneMoreSent(env: Env, u: Upload, list: seq<CompletedPart>)
    requires list != []
    ensures var init, last := list[..|list| - 1], list[|list| - 1];
            && (AllSent(env, u, list) <==> AllSent(env, u, init) && SentAs(env, u, last))
            && (AllSent(env, u, list) ==>
                  && Flatten(Bodies(env, u, list)) == Flatten(Bodies(env, u, init)) + u.parts[last.number]
                  && Flatten(Digests(env.md5, Bodies(env, u, list)))
                     == Flatten(Digests(env.md5, Bodies(env, u, init))) + env.md5(u.parts[last.number]))
  {
    var init, last := list[..|list| - 1], list[|list| - 1];
    assert forall i :: 0 <= i < |init| ==> init[i] == list[i];
    if AllSent(env, u, init) && SentAs(env, u, last) {
      assert forall i :: 0 <= i < |list| ==> list[i] == if i < |init| then init[i] else last;
      var bodies := Bodies(env, u, list);
      assert bodies == Bodies(env, u, init) + [u.parts[last.number]];
      FlattenSnoc(Bodies(env, u, init), u.parts[last.number]);
      assert Digests(env.md5, bodies) == Digests(env.md5, Bodies(env, u, init)) + [env.md5(u.parts[last.number])];
      FlattenSnoc(Digests(env.md5, Bodies(env, u, init)), env.md5(u.parts[last.number]));
    }
  }

  /** Assembly concatenates the bodies last sent, and the digests of those bodies. */
  lemma {:induction false} AssembleIsConcatenation(env: Env, s: Store, u: Upload, q: Place, list: seq<CompletedPart>)
    requires Mirrors(env, s, q, u)
    ensures if AllSent(env, u, list) then
              var bodies := Bodies(env, u, list);
              Assemble(s, q, list) == Ok(Assembly(Flatten(bodies), Flatten(Digests(env.md5, bodies))))
            else Assemble(s, q, list).Err?
  {
    if list != [] {
      AssembleIsConcatenation(env, s, u, q, list[..|list| - 1]);
      FetchSent(env, s, u, q, list[|list| - 1]);
      OneMoreSent(env, u, list);
    }
  }

  lemma InOrderIsAscending(list: seq<CompletedPart>)
    ensures InOrder(list) <==> list != [] && Multipart.Ascending(list)
  {
    if list != [] && Multipart.Ascending(list) {
      assert list[0].number > Before(list, 0);
      forall i | 0 < i < |list| ensures list[i - 1].number < list[i].number {
        assert list[i].number > Before(list, i);
      }
    }
    if InOrder(list) {
      forall i | 0 <= i < |list| ensures list[i].number > Before(list, i) {
      }
    }
  }

  lemma RoomIsEnough(env: Env, s: Store, meta: Meta)
    requires ValidMeta(meta)
    ensures CanPublish(s, Target(env, meta), meta.key) <==> Room(env, s, meta)
  {
    TargetInBucket(env, meta);
    var path := ObjectPlace(env, meta);
    assert path != [];
    forall i | 0 <= i < |path| ensures path[..i] == if i < |path| - 1 then Up(path)[..i] else Up(path) {
    }
  }

  /** The object that the list makes of the upload: its bodies joined, under the composite of their digests. */
  function ObjectOf(env: Env, u: Upload, list: seq<CompletedPart>): File
    requires AllSent(env, u, list)
  {
    var digest := env.md5(Flatten(Digests(env.md5, Bodies(env, u, list))));
    File(Flatten(Bodies(env, u, list)), Some("\"" + (HexEncode(digest) + "-" + ToDecimal(|list|)) + "\""), u.meta)
  }

  /** The upload was begun with metadata, the list fits it, and there is room. */
  predicate Fits(env: Env, s: Store, u: Upload, list: seq<CompletedPart>) {
    u.meta.Some? && InOrder(list) && AllSent(env, u, list) && Room(env, s, u.meta.value)
  }

  lemma MetaFound(env: Env, s: Store, u: Upload, q: Place)
    requires Lossless(env) && Mirrors(env, s, q, u) && q !in s.files
    ensures FindMeta(env, s, q) == if u.meta.Some? then Ok(u.meta.value) else Err(UploadNotFound)
  {
    assert FileAt(s, q + [META]) == if u.meta.Some? then Some(Sidecar(env, u.meta.value)) else None;
  }

  /** One completion of an open upload. */
  lemma CompleteMirrored(env: Env, s: Store, u: Upload, q: Place, list: seq<CompletedPart>, cleaned: bool)
    requires Lossless(env) && Mirrors(env, s, q, u) && q !in s.files
    ensures var (t, outcome) := ApplyComplete(env, s, q, list, cleaned);
            if Fits(env, s, u, list) then
              var made := ObjectOf(env, u, list);
              var published := Publish(s, ObjectPlace(env, u.meta.value), made);
              && outcome == Completed(made.etag.value, |made.data|)
              && t == if cleaned then RemoveTree(published, q) else published
            else outcome.Rejected? && t == s
  {
    MetaFound(env, s, u, q);
    InOrderIsAscending(list);
    AssembleIsConcatenation(env, s, u, q, list);
    if u.meta.Some? {
      TargetInBucket(env, u.meta.value);
      RoomIsEnough(env, s, u.meta.value);
    }
  }

  /** Publishing and removing the upload's directory, seen path by path. */
  lemma PublishedFiles(env: Env, s: Store, q: Place, meta: Meta, made: File, cleaned: bool, path: Place)
    requires ValidMeta(meta) && IsUploadPlace(Root(env), q)
    ensures var published := Publish(s, ObjectPlace(env, meta), made);
            FileAt(if cleaned then RemoveTree(published, q) else published, path) ==
            if path == ObjectPlace(env, meta) then Some(made)
            else if cleaned && q <= path then None
            else FileAt(s, path)
  {
    TargetInBucket(env, meta);
    assert q <= ObjectPlace(env, meta) ==> Root(env) <= ObjectPlace(env, meta);
  }

  /** What a completion makes of the files. */
  ghost predicate CompletedRight(env: Env, s: Store, u: Upload, id: UploadId, list: seq<CompletedPart>, cleaned: bool,
      t: Store, outcome: Outcome)
  {
    if Reaches(env, s, u, id) && Fits(env, s, u, list) then
      var made := ObjectOf(env, u, list);
      && outcome == Completed(made.etag.value, |made.data|)
      && forall path ::
           FileAt(t, path) == if path == ObjectPlace(env, u.meta.value) then Some(made)
                              else if cleaned && PlaceOf(Root(env), id) <= path then None
                              else FileAt(s, path)
    else outcome.Rejected? && t == s
  }

  lemma CompleteOnce(env: Env, s: Store, u: Upload, id: UploadId, list: seq<CompletedPart>, cleaned: bool)
    requires Lossless(env) && Sane(env, s) && IsUploadPlace(Root(env), PlaceOf(Root(env), id))
    requires Mirrors(env, s, PlaceOf(Root(env), id), u)
    ensures var (t, outcome) := Apply(env, s, Complete(id, list, cleaned));
            CompletedRight(env, s, u, id, list, cleaned, t, outcome)
  {
    var q := PlaceOf(Root(env), id);
    var (t, outcome) := Apply(env, s, Complete(id, list, cleaned));
    FoundExactly(env, s, u, id);
    if Reaches(env, s, u, id) {
      CompleteMirrored(env, s, u, q, list, cleaned);
      if Fits(env, s, u, list) {
        var made := ObjectOf(env, u, list);
        forall path
          ensures FileAt(t, path) == if path == ObjectPlace(env, u.meta.value) then Some(made)
                                     else if cleaned && q <= path then None
                                     else FileAt(s, path)
        {
          PublishedFiles(env, s, q, u.meta.value, made, cleaned, path);
        }
      }
    }
  }

  /**
   * Complete, after any run of calls. It is accepted exactly when the upload is open and was begun with
   * metadata, the list is in order, every listed part was last sent as a body with the listed tag, and
   * there is room; a rejection changes nothing. What is published, at the bucket and key of the metadata,
   * is the concatenation of those bodies with that very metadata, under the composite of their digests.
   */
  lemma CompletePublishesConcatenation(env: Env, s0: Store, ops: seq<Op>, id: UploadId, list: seq<CompletedPart>,
      cleaned: bool)
    requires Lossless(env) && NothingUploaded(env, s0) && AllRespect(env, ops)
    requires IsUploadPlace(Root(env), PlaceOf(Root(env), id))
    ensures var s := Run(env, s0, ops);
            var (t, outcome) := Apply(env, s, Complete(id, list, cleaned));
            CompletedRight(env, s, History(env, s0, ops, PlaceOf(Root(env), id)), id, list, cleaned, t, outcome)
  {
    RunKeepsSane(env, s0, ops);
    StoredPartsAreLatest(env, s0, ops, PlaceOf(Root(env), id));
    CompleteOnce(env, Run(env, s0, ops), History(env, s0, ops, PlaceOf(Root(env), id)), id, list, cleaned);
  }

  /** Why a completion is refused: the first reason in the order of the checks. */
  lemma CompletionErrors(env: Env, s: Store, u: Upload, id: UploadId, list: seq<CompletedPart>, cleaned: bool)
    requires Lossless(env) && Sane(env, s) && IsUploadPlace(Root(env), PlaceOf(Root(env), id))
    requires Mirrors(env, s, PlaceOf(Root(env), id), u)
    ensures var outcome := Apply(env, s, Complete(id, list, cleaned)).1;
            && (!Reaches(env, s, u, id) ==> outcome == Rejected(NotThere(env, s, id)))
            && (Reaches(env, s, u, id) && !InOrder(list) ==> outcome == Rejected(InvalidPart))
            && (Reaches(env, s, u, id) && InOrder(list) && u.meta.None? ==> outcome == Rejected(UploadNotFound))
            && (Reaches(env, s, u, id) && InOrder(list) && u.meta.Some? && AllSent(env, u, list) ==>
                  !Room(env, s, u.meta.value) ==> outcome == Rejected(IoError))
  {
    var q := PlaceOf(Root(env), id);
    FoundExactly(env, s, u, id);
    MetaFound(env, s, u, q);
    InOrderIsAscending(list);
    AssembleIsConcatenation(env, s, u, q, list);
    if u.meta.Some? {
      RoomIsEnough(env, s, u.meta.value);
    }
  }

  lemma AssembleFirstBad(env: Env, s: Store, u: Upload, q: Place, list: seq<CompletedPart>, n: nat)
    requires Mirrors(env, s, q, u) && n < |list| && AllSent(env, u, list[..n]) && !SentAs(env, u, list[n])
    ensures var missing := list[n].number !in u.parts && PartPath(q, list[n].number) !in s.dirs;
            Assemble(s, q, list) == Err(if missing then XattrError else InvalidPart)
  {
    AssembleIsConcatenation(env, s, u, q, list[..n]);
    FetchSent(env, s, u, q, list[n]);
    assert list[..n + 1][..n] == list[..n];
    AssembleFails(s, q, list, n + 1);
  }

  /** A list with a bad part is refused for the first bad one: not sent, or sent with another tag. */
  lemma FirstBadPart(env: Env, s: Store, u: Upload, id: UploadId, list: seq<CompletedPart>, n: nat, cleaned: bool)
    requires Lossless(env) && Sane(env, s) && IsUploadPlace(Root(env), PlaceOf(Root(env), id))
    requires Mirrors(env, s, PlaceOf(Root(env), id), u) && Reaches(env, s, u, id) && u.meta.Some? && InOrder(list)
    requires n < |list| && AllSent(env, u, list[..n]) && !SentAs(env, u, list[n])
    ensures var missing := list[n].number !in u.parts && PartPath(PlaceOf(Root(env), id), list[n].number) !in s.dirs;
            Apply(env, s, Complete(id, list, cleaned)) == (s, Rejected(if missing then XattrError else InvalidPart))
  {
    FoundExactly(env, s, u, id);
    MetaFound(env, s, u, PlaceOf(Root(env), id));
    InOrderIsAscending(list);
    AssembleFirstBad(env, s, u, PlaceOf(Root(env), id), list, n);
  }

  lemma {:induction false} InOrderIsStrict(list: seq<CompletedPart>, i: nat, j: nat)
    requires InOrder(list) && i < j < |list|
    ensures list[i].number < list[j].number
  {
    if i < j - 1 {
      InOrderIsStrict(list, i, j - 1);
    }
  }

  /** An accepted list never uses a part twice. */
  lemma AcceptedListsUsePartsOnce(env: Env, s: Store, id: UploadId, list: seq<CompletedPart>, cleaned: bool)
    requires Apply(env, s, Complete(id, list, cleaned)).1.Completed?
    ensures forall i, j :: 0 <= i < j < |list| ==> list[i].number != list[j].number
  {
    InOrderIsAscending(list);
    forall i, j | 0 <= i < j < |list| ensures list[i].number != list[j].number {
      InOrderIsStrict(list, i, j);
    }
  }

  // ---- The end of an upload ----

  predicate Reinitiates(env: Env, ops: seq<Op>, q: Place) {
    exists i :: 0 <= i < |ops| && ops[i].Init? && OpPlace(env, ops[i]) == q
  }

  lemma {:induction false} GoneStaysGone(env: Env, s: Store, ops: seq<Op>, q: Place)
    requires Lossless(env) && Sane(env, s) && AllRespect(env, ops) && IsUploadPlace(Root(env), q)
    requires q !in s.dirs && !Reinitiates(env, ops, q)
    ensures q !in Run(env, s, ops).dirs
  {
    if ops == [] {
    } else {
      var init, op := ops[..|ops| - 1], ops[|ops| - 1];
      assert forall i :: 0 <= i < |init| ==> init[i] == ops[i];
      GoneStaysGone(env, s, init, q);
      RunKeepsSane(env, s, init);
      AcceptedInitIsValid(env, Run(env, s, init), op);
      StepInside(env, Run(env, s, init), op, q, q);
    }
  }

  /**
   * Once it has ended, by a completion that removed its directory or by an abort, an upload answers every
   * later part, listing and completion with upload-not-found under every spelling of its name, and a
   * further abort succeeds and changes nothing; only a spelling that passes through a file gets another
   * error.
   */
  lemma LifecycleEnds(env: Env, s: Store, last: Op, later: seq<Op>, q: Place, op: Op)
    requires Lossless(env) && Sane(env, s) && IsUploadPlace(Root(env), q)
    requires OpPlace(env, last) == q && EffectOf(env, s, last).Ended?
    requires AllRespect(env, later) && !Reinitiates(env, later, q)
    requires (op.WritePart? && 1 <= op.number <= 10_000) || op.ListParts? || op.Complete? || op.Abort?
    requires OpPlace(env, op) == q
    ensures var t := Run(env, Apply(env, s, last).0, later);
            Apply(env, t, op) == (t, if PassesFile(env, t, op.id) then Rejected(IoError)
                                     else if op.Abort? then Aborted
                                     else Rejected(UploadNotFound))
  {
    var u := Apply(env, s, last).0;
    StepKeepsSane(env, s, last);
    StepInside(env, s, last, q, q);
    GoneStaysGone(env, u, later, q);
    RunKeepsSane(env, u, later);
    var t := Run(env, u, later);
    NoFileAt(env, t, q);
    GoneIsNotFound(env, t, q, op);
  }

  lemma GoneIsNotFound(env: Env, t: Store, q: Place, op: Op)
    requires !op.Init? && OpPlace(env, op) == q && q !in t.dirs && q !in t.files
    ensures Find(env, t, op.id) == Err(if PassesFile(env, t, op.id) then IoError else UploadNotFound)
  {
    ReachIsPlace(t.dirs, Root(env), op.id);
    if Reach(t.dirs, Root(env), op.id).Some? {
      FollowIsNotBlocked(t.files.Keys, t.dirs, Start(Root(env), op.id), Split(op.id, '/'));
    }
  }

  /** An abort ends an open upload, and an accepted completion does if its clean-up works. */
  lemma WhatEnds(env: Env, s: Store, u: Upload, id: UploadId, list: seq<CompletedPart>, cleaned: bool)
    requires Lossless(env) && Sane(env, s) && IsUploadPlace(Root(env), PlaceOf(Root(env), id))
    requires Mirrors(env, s, PlaceOf(Root(env), id), u)
    ensures EffectOf(env, s, Abort(id)).Ended? <==> Reaches(env, s, u, id)
    ensures Reaches(env, s, u, id) ==> Apply(env, s, Abort(id)).1 == Aborted
    ensures EffectOf(env, s, Complete(id, list, cleaned)).Ended? <==>
            Reaches(env, s, u, id) && Fits(env, s, u, list) && cleaned
  {
    FoundExactly(env, s, u, id);
    CompleteOnce(env, s, u, id, list, cleaned);
  }

  // ---- Beginning ----

  /** A fresh upload is begun exactly for a valid bucket and key where its directory can be made. */
  lemma BegunExactly(env: Env, s: Store, name: FreshName, meta: Meta)
    ensures var q := Root(env) + [name];
            var (t, outcome) := Apply(env, s, Init(name, meta, false));
            && outcome == (if !ValidMeta(meta) then Rejected(InvalidKey)
                           else if exists i :: 0 <= i <= |q| && q[..i] in s.files then Rejected(IoError)
                           else Initiated)
            && (outcome.Initiated? ==> Find(env, t, name) == Ok(q) && FileAt(t, q + [META]) == Some(Sidecar(env, meta)))
  {
    var q := Root(env) + [name];
    assert q[..|q|] == q && q[..|q| - 1] == Root(env);
    PlainPlace(Apply(env, s, Init(name, meta, false)).0.dirs, Root(env), name);
  }
}
