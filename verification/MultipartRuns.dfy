/**
 * Whole runs of multipart calls, whatever the spelling of the upload names: what each call does to the
 * files and directories of uploads.
 */
module MultipartRuns {
  import opened Types
  import opened Etags
  import opened Decimal
  import opened Keys
  import opened TempFile
  import opened UploadPlaces
  import opened Multipart

  function OpPlace(env: Env, op: Op): Place {
    match op
    case Init(name, _, _) => Root(env) + [name]
    case WritePart(id, _, _) => PlaceOf(Root(env), id)
    case ListParts(id) => PlaceOf(Root(env), id)
    case Complete(id, _, _) => PlaceOf(Root(env), id)
    case Abort(id) => PlaceOf(Root(env), id)
  }

  /** The call's name leads to the directory of an upload, however it is spelled. */
  predicate Respects(env: Env, op: Op) {
    IsUploadPlace(Root(env), OpPlace(env, op))
  }

  predicate AllRespect(env: Env, ops: seq<Op>) {
    forall i :: 0 <= i < |ops| ==> Respects(env, ops[i])
  }

  function Run(env: Env, s: Store, ops: seq<Op>): Store {
    if ops == [] then s else Apply(env, Run(env, s, ops[..|ops| - 1]), ops[|ops| - 1]).0
  }

  /** The upload directory holds no files yet; anything may be elsewhere. */
  predicate NothingUploaded(env: Env, s: Store) {
    forall path :: path in s.files ==> !(Root(env) <= path)
  }

  predicate ValidMeta(meta: Meta) {
    ValidBucketName(meta.bucket) && ValidKey(meta.key)
  }

  /** Files in the multipart directory are inside uploads, and sidecars name valid keys. */
  ghost predicate Sane(env: Env, s: Store) {
    && (forall path :: path in s.files && Root(env) <= path ==> |path| > |Root(env)| + 1)
    && (forall q :: IsUploadPlace(Root(env), q) && q + [META] in s.files ==>
          env.decode(s.files[q + [META]].data).Some? && ValidMeta(env.decode(s.files[q + [META]].data).value))
  }

  // ---- Published objects go to buckets ----

  /** Where an object goes: its bucket's directory, then the pieces of its key that count. */
  function ObjectPlace(env: Env, meta: Meta): Place {
    env.data + [meta.bucket] + Kept(Split(meta.key, '/'), '.')
  }

  /** A valid key resolves to a path in its bucket. */
  lemma TargetInBucket(env: Env, meta: Meta)
    requires ValidMeta(meta)
    ensures Target(env, meta) == ObjectPlace(env, meta)
    ensures !(Root(env) <= Target(env, meta))
  {
    PlainPlace({}, env.data, meta.bucket);
    assert ".." == ['.', '.'];
    WalkIsKept(env.data + [meta.bucket], Split(meta.key, '/'));
    var target := ObjectPlace(env, meta);
    assert target[|env.data|] == meta.bucket;
    assert Root(env)[|env.data|] == MULTIPART;
  }

  lemma PublishOutside(env: Env, s: Store, meta: Meta, f: File)
    requires ValidMeta(meta) && Target(env, meta) != []
    ensures var t := Publish(s, Target(env, meta), f);
            && (forall path :: Root(env) <= path ==>
                  (path in t.files <==> path in s.files) && (path in t.files ==> t.files[path] == s.files[path]))
            && (forall d :: Root(env) <= d ==> (d in t.dirs <==> d in s.dirs))
  {
    TargetInBucket(env, meta);
    var target := Target(env, meta);
    forall d | d in Prefixes(Up(target)) + {Up(target)} ensures d <= target {
    }
  }

  // ---- What each call does inside the multipart directory ----

  /** What a call has done to the upload that it names. */
  datatype Effect = Began | Stored | Ended | Unchanged

  function EffectOf(env: Env, s: Store, op: Op): Effect {
    var outcome := Apply(env, s, op).1;
    match op
    case Init(_, _, _) => if outcome.Initiated? then Began else Unchanged
    case WritePart(_, _, _) => if outcome.Written? then Stored else Unchanged
    case ListParts(_) => Unchanged
    case Complete(_, _, cleaned) => if outcome.Completed? && cleaned then Ended else Unchanged
    case Abort(id) => if Reach(s.dirs, Root(env), id).Some? && OpPlace(env, op) in s.dirs then Ended else Unchanged
  }

  function FileAt(s: Store, path: Place): Option<File> {
    if path in s.files then Some(s.files[path]) else None
  }

  /** A stored part: the body under the body's own tag. */
  function PartFile(env: Env, body: bytes): File {
    File(body, Some(EtagOf(env.md5, body)), None)
  }

  function Sidecar(env: Env, meta: Meta): File {
    File(env.encode(meta), None, None)
  }

  /** What is at a path after a call with this effect. */
  function FileAfter(env: Env, effect: Effect, op: Op, path: Place, before: Option<File>): Option<File> {
    match effect
    case Began =>
      if op.Init? && !op.crashed && path == OpPlace(env, op) + [META] then Some(Sidecar(env, op.meta)) else before
    case Stored =>
      if op.WritePart? && path == PartPath(OpPlace(env, op), op.number) then Some(PartFile(env, op.body)) else before
    case Ended => if OpPlace(env, op) <= path then None else before
    case Unchanged => before
  }

  /** Whether there is a directory at the place of an upload afterwards. */
  predicate DirAfter(env: Env, effect: Effect, op: Op, q: Place, before: bool) {
    if OpPlace(env, op) != q then before
    else
      match effect
      case Began => true
      case Ended => false
      case _ => before
  }

  /** The place of an upload is never a file. */
  lemma NoFileAt(env: Env, s: Store, q: Place)
    requires Sane(env, s) && IsUploadPlace(Root(env), q)
    ensures q !in s.files
  {
  }

  lemma InitInside(env: Env, s: Store, op: Op, path: Place, q: Place)
    requires op.Init? && IsUploadPlace(Root(env), q)
    ensures FileAt(Apply(env, s, op).0, path) == FileAfter(env, EffectOf(env, s, op), op, path, FileAt(s, path))
    ensures q in Apply(env, s, op).0.dirs <==> DirAfter(env, EffectOf(env, s, op), op, q, q in s.dirs)
  {
    forall d | d in Prefixes(OpPlace(env, op)) ensures d != q {
      assert |d| < |q|;
    }
  }

  lemma WriteInside(env: Env, s: Store, op: Op, path: Place, q: Place)
    requires op.WritePart?
    ensures FileAt(Apply(env, s, op).0, path) == FileAfter(env, EffectOf(env, s, op), op, path, FileAt(s, path))
    ensures q in Apply(env, s, op).0.dirs <==> DirAfter(env, EffectOf(env, s, op), op, q, q in s.dirs)
  {
    ReachIsPlace(s.dirs, Root(env), op.id);
  }

  lemma AbortInside(env: Env, s: Store, op: Op, path: Place, q: Place)
    requires Sane(env, s) && Respects(env, op) && op.Abort? && IsUploadPlace(Root(env), q)
    ensures FileAt(Apply(env, s, op).0, path) == FileAfter(env, EffectOf(env, s, op), op, path, FileAt(s, path))
    ensures q in Apply(env, s, op).0.dirs <==> DirAfter(env, EffectOf(env, s, op), op, q, q in s.dirs)
  {
    ReachIsPlace(s.dirs, Root(env), op.id);
    NoFileAt(env, s, OpPlace(env, op));
  }

  lemma CompleteInside(env: Env, s: Store, p: Place, list: seq<CompletedPart>, cleaned: bool, path: Place, q: Place)
    requires Sane(env, s) && IsUploadPlace(Root(env), p) && IsUploadPlace(Root(env), q) && Root(env) <= path
    ensures var (t, outcome) := ApplyComplete(env, s, p, list, cleaned);
            && FileAt(t, path) == (if cleaned && outcome.Completed? && p <= path then None else FileAt(s, path))
            && (q in t.dirs <==> q in s.dirs && !(cleaned && outcome.Completed? && p == q))
  {
    var meta := FindMeta(env, s, p);
    if meta.Ok? && Target(env, meta.value) != [] {
      var a := Assemble(s, p, list);
      if a.Ok? {
        PublishOutside(env, s, meta.value,
                       File(a.value.data, Some(CompositeEtag(env.md5, a.value.digests, |list|)), Some(meta.value)));
      }
    }
  }

  lemma CompletionInside(env: Env, s: Store, op: Op, path: Place, q: Place)
    requires Sane(env, s) && Respects(env, op) && op.Complete?
    requires IsUploadPlace(Root(env), q) && Root(env) <= path
    ensures FileAt(Apply(env, s, op).0, path) == FileAfter(env, EffectOf(env, s, op), op, path, FileAt(s, path))
    ensures q in Apply(env, s, op).0.dirs <==> DirAfter(env, EffectOf(env, s, op), op, q, q in s.dirs)
  {
    ReachIsPlace(s.dirs, Root(env), op.id);
    if Find(env, s, op.id).Ok? {
      CompleteInside(env, s, OpPlace(env, op), op.list, op.cleaned, path, q);
    }
  }

  /** Files and directories of uploads change only as the outcomes of the calls say. */
  lemma StepInside(env: Env, s: Store, op: Op, path: Place, q: Place)
    requires Sane(env, s) && Respects(env, op) && Root(env) <= path && IsUploadPlace(Root(env), q)
    ensures FileAt(Apply(env, s, op).0, path) == FileAfter(env, EffectOf(env, s, op), op, path, FileAt(s, path))
    ensures q in Apply(env, s, op).0.dirs <==> DirAfter(env, EffectOf(env, s, op), op, q, q in s.dirs)
  {
    match op
    case Init(_, _, _) => InitInside(env, s, op, path, q);
    case WritePart(_, _, _) => WriteInside(env, s, op, path, q);
    case ListParts(_) =>
    case Complete(_, _, _) => CompletionInside(env, s, op, path, q);
    case Abort(_) => AbortInside(env, s, op, path, q);
  }

  lemma AcceptedInitIsValid(env: Env, s: Store, op: Op)
    ensures EffectOf(env, s, op).Began? ==> op.Init? && ValidMeta(op.meta)
  {
  }

  lemma MetaIsNoPart(q: Place, r: Place, n: nat)
    ensures q + [META] != PartPath(r, n)
  {
    DecimalDigits(n);
    assert META[0] == '.' && META != ToDecimal(n);
    var a, b := q + [META], PartPath(r, n);
    assert a[|a| - 1] == META && b[|b| - 1] == ToDecimal(n);
  }

  lemma PartPathInjective(q: Place, n: nat, r: Place, m: nat)
    requires PartPath(q, n) == PartPath(r, m)
    ensures q == r && n == m
  {
    assert |q| == |r|;
    assert PartPath(q, n)[..|q|] == q && PartPath(r, m)[..|r|] == r;
    assert PartPath(q, n)[|q|] == ToDecimal(n) && PartPath(r, m)[|r|] == ToDecimal(m);
    DecimalInjective(n, m);
  }

  /** A sidecar is an old one or that of a call that began the upload. */
  lemma SidecarAfter(env: Env, effect: Effect, op: Op, q: Place, before: Option<File>)
    requires Respects(env, op) && IsUploadPlace(Root(env), q) && FileAfter(env, effect, op, q + [META], before).Some?
    ensures var f := FileAfter(env, effect, op, q + [META], before);
            f == before || (effect.Began? && op.Init? && f == Some(Sidecar(env, op.meta)))
  {
    if op.WritePart? {
      MetaIsNoPart(q, OpPlace(env, op), op.number);
    }
  }

  /** A file directly at the place of an upload does not come about. */
  lemma DeepAfter(env: Env, effect: Effect, op: Op, path: Place, before: Option<File>)
    requires Respects(env, op) && FileAfter(env, effect, op, path, before).Some?
    ensures before.Some? || |path| == |Root(env)| + 2
  {
  }

  lemma StepKeepsSane(env: Env, s: Store, op: Op)
    requires Lossless(env) && Sane(env, s) && Respects(env, op)
    ensures Sane(env, Apply(env, s, op).0)
  {
    var t := Apply(env, s, op).0;
    AcceptedInitIsValid(env, s, op);
    forall path | path in t.files && Root(env) <= path ensures |path| > |Root(env)| + 1 {
      StepInside(env, s, op, path, Root(env) + [""]);
      DeepAfter(env, EffectOf(env, s, op), op, path, FileAt(s, path));
    }
    forall q | IsUploadPlace(Root(env), q) && q + [META] in t.files
      ensures env.decode(t.files[q + [META]].data).Some? && ValidMeta(env.decode(t.files[q + [META]].data).value)
    {
      assert Root(env) <= q + [META];
      StepInside(env, s, op, q + [META], q);
      SidecarAfter(env, EffectOf(env, s, op), op, q, FileAt(s, q + [META]));
    }
  }

  lemma {:induction false} RunKeepsSane(env: Env, s: Store, ops: seq<Op>)
    requires Lossless(env) && Sane(env, s) && AllRespect(env, ops)
    ensures Sane(env, Run(env, s, ops))
  {
    if ops == [] {
    } else {
      var init := ops[..|ops| - 1];
      assert forall i :: 0 <= i < |init| ==> init[i] == ops[i];
      RunKeepsSane(env, s, init);
      StepKeepsSane(env, Run(env, s, init), ops[|ops| - 1]);
    }
  }
}
