/**
 * Multipart uploads: parts collected in an upload directory, assembled into one object.
 *
 * `Apply` says what each call does to files and directories, whatever place the upload name leads
 * to; the class carries the calls out.
 */
module Multipart {
  import opened Types
  import opened Etags
  import opened Decimal
  import opened Keys
  import opened TempFile
  import opened UploadPlaces

  type UploadId = string

  /** The names that `init_multipart` makes up. */
  type FreshName = name: string | Plain(name) witness "u"

  datatype Meta = Meta(bucket: string, key: string, contentType: Option<string>, access: Option<AccessLevel>,
                       userMetadata: map<string, string>)

  /** Parts carry an etag, published objects their metadata too, sidecars neither. */
  datatype File = File(data: bytes, etag: Option<string>, meta: Option<Meta>)

  datatype Store = Store(files: map<Place, File>, dirs: set<Place>)

  /** The digest, where the data directory is, and the sidecar's codec. */
  datatype Env = Env(md5: Digest, data: Place, encode: Meta -> bytes, decode: bytes -> Option<Meta>)

  ghost predicate Lossless(env: Env) {
    forall meta :: env.decode(env.encode(meta)) == Some(meta)
  }

  datatype CompletedPart = CompletedPart(number: nat, etag: string)

  /** `crashed` marks a directory whose sidecar was never written, `cleaned` a removal that worked. */
  datatype Op =
    | Init(name: FreshName, meta: Meta, crashed: bool)
    | WritePart(id: UploadId, number: nat, body: bytes)
    | ListParts(id: UploadId)
    | Complete(id: UploadId, list: seq<CompletedPart>, cleaned: bool)
    | Abort(id: UploadId)

  datatype Outcome =
    | Initiated
    | Written(etag: string)
    | Listed(parts: map<Place, File>)
    | Completed(etag: string, size: nat)
    | Aborted
    | Rejected(error: StorageError)

  function Root(env: Env): Place {
    env.data + [MULTIPART]
  }

  function PartPath(q: Place, number: nat): Place {
    q + [ToDecimal(number)]
  }

  /** `create_dir_all` and what it takes. */
  predicate CanMake(s: Store, q: Place) {
    q !in s.files && forall i :: 0 <= i < |q| ==> q[..i] !in s.files
  }

  function Make(s: Store, q: Place): Store {
    s.(dirs := s.dirs + Prefixes(q) + {q})
  }

  function Put(s: Store, path: Place, f: File): Store {
    s.(files := s.files[path := f])
  }

  /** `remove_dir_all`: the place and everything below it. */
  function RemoveTree(s: Store, q: Place): Store {
    Store(map path | path in s.files && !(q <= path) :: s.files[path], set d | d in s.dirs && !(q <= d))
  }

  /** What a part's number must exceed. */
  function Before(list: seq<CompletedPart>, i: nat): nat
    requires i < |list|
  {
    if i == 0 then 0 else list[i - 1].number
  }

  predicate Ascending(list: seq<CompletedPart>) {
    forall i :: 0 <= i < |list| ==> list[i].number > Before(list, i)
  }

  datatype Assembly = Assembly(data: bytes, digests: bytes)

  /** One listed part: its bytes and raw digest, or the error it raises. */
  function Fetch(s: Store, q: Place, p: CompletedPart): Result<(bytes, bytes), StorageError> {
    var path := PartPath(q, p.number);
    if path in s.files then
      if s.files[path].etag != Some(p.etag) then Err(InvalidPart)
      else
        match HexDecode(TrimQuotes(p.etag))
        case None => Err(InvalidPart)
        case Some(raw) => Ok((s.files[path].data, raw))
    else if path in s.dirs then Err(InvalidPart)
    else Err(XattrError)
  }

  /** Parts in list order; the first bad part decides the error. */
  function Assemble(s: Store, q: Place, list: seq<CompletedPart>): Result<Assembly, StorageError> {
    if list == [] then Ok(Assembly([], []))
    else
      match Assemble(s, q, list[..|list| - 1])
      case Err(e) => Err(e)
      case Ok(done) =>
        match Fetch(s, q, list[|list| - 1])
        case Err(e) => Err(e)
        case Ok((data, raw)) => Ok(Assembly(done.data + data, done.digests + raw))
  }

  /** Where a completed object goes. */
  function Target(env: Env, meta: Meta): Place {
    PlaceOf(PlaceOf(env.data, meta.bucket), meta.key)
  }

  /** The final rename: the parents can be made, and no directory is in the way. */
  predicate CanPublish(s: Store, target: Place, key: string) {
    var pieces := Split(key, '/');
    && pieces[|pieces| - 1] != "" && pieces[|pieces| - 1] != "."
    && target != [] && CanMake(s, Up(target)) && target !in s.dirs
  }

  function Publish(s: Store, target: Place, f: File): Store {
    Put(Make(s, Up(target)), target, f)
  }

  /** The name passes through a file, which the lookup reports as an error of its own. */
  predicate PassesFile(env: Env, s: Store, id: UploadId) {
    Blocked(s.files.Keys, s.dirs, Start(Root(env), id), Split(id, '/'))
  }

  /** The directory or file that a call's name leads to, or the error it answers with. */
  function Find(env: Env, s: Store, id: UploadId): Result<Place, StorageError> {
    match Reach(s.dirs, Root(env), id)
    case None => Err(if PassesFile(env, s, id) then IoError else UploadNotFound)
    case Some(q) => if q in s.dirs || q in s.files then Ok(q) else Err(UploadNotFound)
  }

  function FindMeta(env: Env, s: Store, q: Place): Result<Meta, StorageError> {
    var path := q + [META];
    if q in s.files then Err(IoError)
    else if path !in s.files then Err(UploadNotFound)
    else
      match env.decode(s.files[path].data)
      case None => Err(InvalidValue)
      case Some(meta) => Ok(meta)
  }

  function ApplyComplete(env: Env, s: Store, q: Place, list: seq<CompletedPart>, cleaned: bool): (Store, Outcome) {
    if list == [] || !Ascending(list) then (s, Rejected(InvalidPart))
    else
      match FindMeta(env, s, q)
      case Err(e) => (s, Rejected(e))
      case Ok(meta) =>
        match Assemble(s, q, list)
        case Err(e) => (s, Rejected(e))
        case Ok(a) =>
          var target := Target(env, meta);
          var etag := CompositeEtag(env.md5, a.digests, |list|);
          if !CanPublish(s, target, meta.key) then (s, Rejected(IoError))
          else
            var t := Publish(s, target, File(a.data, Some(etag), Some(meta)));
            (if cleaned then RemoveTree(t, q) else t, Completed(etag, |a.data|))
  }

  function ApplyInit(env: Env, s: Store, name: FreshName, meta: Meta, crashed: bool): (Store, Outcome) {
    var q := Root(env) + [name];
    if !ValidBucketName(meta.bucket) || !ValidKey(meta.key) then (s, Rejected(InvalidKey))
    else if !CanMake(s, q) then (s, Rejected(IoError))
    else
      var made := Make(s, q);
      (if crashed then made else Put(made, q + [META], File(env.encode(meta), None, None)), Initiated)
  }

  function ApplyWrite(env: Env, s: Store, q: Place, number: nat, body: bytes): (Store, Outcome) {
    var path := PartPath(q, number);
    var etag := EtagOf(env.md5, body);
    if path in s.dirs || q in s.files then (s, Rejected(IoError))
    else (Put(s, path, File(body, Some(etag), None)), Written(etag))
  }

  function Apply(env: Env, s: Store, op: Op): (Store, Outcome) {
    match op
    case Init(name, meta, crashed) => ApplyInit(env, s, name, meta, crashed)
    case WritePart(id, number, body) =>
      if !(1 <= number <= 10_000) then (s, Rejected(InvalidPart))
      else
        (match Find(env, s, id)
         case Err(e) => (s, Rejected(e))
         case Ok(q) => ApplyWrite(env, s, q, number, body))
    case ListParts(id) =>
      (match Find(env, s, id)
       case Err(e) => (s, Rejected(e))
       case Ok(q) =>
         if q in s.files then (s, Rejected(IoError))
         else (s, Listed(map path | path in s.files && path != [] && Up(path) == q && path != q + [META]
                                :: s.files[path])))
    case Complete(id, list, cleaned) =>
      (match Find(env, s, id)
       case Err(e) => (s, Rejected(e))
       case Ok(q) => ApplyComplete(env, s, q, list, cleaned))
    case Abort(id) =>
      (match Find(env, s, id)
       case Err(IoError) => (s, Rejected(IoError))
       case Err(_) => (s, Aborted)
       case Ok(q) => if q in s.files then (s, Rejected(IoError)) else (RemoveTree(s, q), Aborted))
  }

  // ---- The calls ----

  class Uploads {
    const env: Env
    var store: Store

    constructor (env: Env, store: Store)
      ensures this.env == env && this.store == store
    {
      this.env := env;
      this.store := store;
    }

    /** A sidecar that cannot be written leaves the directory behind and reports an error. */
    method InitMultipart(name: FreshName, meta: Meta, disk: Disk) returns (r: Outcome)
      modifies this
      ensures var (after, answer) := Apply(env, old(store), Init(name, meta, !disk.flushes));
              if !disk.creates && answer.Initiated? then store == old(store) && r == Rejected(IoError)
              else store == after && r == if answer.Initiated? && !disk.flushes then Rejected(IoError) else answer
      ensures var q := Root(env) + [name];
              && (r.Initiated? ==> q in store.dirs && q + [META] in store.files
                                   && store.files[q + [META]].data == env.encode(meta))
              && (forall path :: path != q + [META] ==>
                    (path in store.files <==> path in old(store).files)
                    && (path in store.files ==> store.files[path] == old(store).files[path]))
    {
      var q := Root(env) + [name];
      if !ValidBucketName(meta.bucket) || !ValidKey(meta.key) {
        return Rejected(InvalidKey);
      }
      if !CanMake(store, q) {
        return Rejected(IoError);
      }
      if !disk.creates {
        return Rejected(IoError);
      }
      store := Make(store, q);
      if !disk.flushes {
        return Rejected(IoError);
      }
      store := Put(store, q + [META], File(env.encode(meta), None, None));
      return Initiated;
    }

    /**
     * The body is streamed to a temp file, synced, tagged and renamed into the upload directory. Any
     * failure up to the rename leaves everything as it was; a directory sync that fails after it
     * reports an error for a part that is stored.
     */
    method WritePartFrom(id: UploadId, number: nat, stream: seq<Read>, disk: Disk) returns (r: Outcome)
      modifies this
      ensures var stored := BodyOf(stream).Some? && disk.creates && disk.flushes && disk.syncs && disk.tags && disk.renames;
              && (!stored ==> store == old(store) && r.Rejected?)
              && (stored ==>
                    var (after, answer) := Apply(env, old(store), WritePart(id, number, BodyOf(stream).value));
                    store == after && r == if answer.Written? && !disk.durable then Rejected(IoError) else answer)
    {
      if !(1 <= number <= 10_000) {
        return Rejected(InvalidPart);
      }
      var dir := Find(env, store, id);
      if dir.Err? {
        return Rejected(dir.error);
      }
      var streamed := StreamToTemp(env.md5, stream, disk);
      match streamed
      case Err(e) => return Rejected(e);
      case Ok(temp) =>
        if !disk.syncs {
          return Rejected(IoError);
        }
        if !disk.tags {
          return Rejected(XattrError);
        }
        var finalPath := PartPath(dir.value, number);
        if !disk.renames || finalPath in store.dirs || dir.value in store.files {
          return Rejected(IoError);
        }
        store := Put(store, finalPath, File(temp.file, Some(temp.etag), None));
        if !disk.durable {
          return Rejected(IoError);
        }
        return Written(temp.etag);
    }

    /** Everything below the place goes, everything else stays. */
    method AbortMultipart(id: UploadId) returns (r: Outcome)
      modifies this
      ensures (store, r) == Apply(env, old(store), Abort(id))
      ensures forall path :: path in store.files ==>
                path in old(store).files && store.files[path] == old(store).files[path]
      ensures forall path :: path in old(store).files && path !in store.files ==> PlaceOf(Root(env), id) <= path
    {
      ReachIsPlace(store.dirs, Root(env), id);
      var dir := Find(env, store, id);
      match dir
      case Err(e) =>
        if e == IoError {
          return Rejected(IoError);
        }
        return Aborted;
      case Ok(q) =>
        if q in store.files {
          return Rejected(IoError);
        }
        store := RemoveTree(store, q);
        return Aborted;
    }

    method CompleteMultipart(id: UploadId, list: seq<CompletedPart>, cleaned: bool) returns (r: Outcome)
      modifies this
      ensures (store, r) == Apply(env, old(store), Complete(id, list, cleaned))
    {
      var dir := Find(env, store, id);
      if dir.Err? {
        return Rejected(dir.error);
      }
      if list == [] {
        return Rejected(InvalidPart);
      }
      var ordered := CheckOrder(list);
      if !ordered {
        return Rejected(InvalidPart);
      }
      var sidecar := FindMeta(env, store, dir.value);
      match sidecar
      case Err(e) => return Rejected(e);
      case Ok(meta) =>
        var assembled := AssembleParts(env.md5, store, dir.value, list);
        match assembled
        case Err(e) => return Rejected(e);
        case Ok((etag, size, data)) =>
          var target := Target(env, meta);
          if !CanPublish(store, target, meta.key) {
            return Rejected(IoError);
          }
          store := Publish(store, target, File(data, Some(etag), Some(meta)));
          if cleaned {
            store := RemoveTree(store, dir.value);
          }
          return Completed(etag, size);
    }
  }

  /** Every number exceeds the one before, the first zero. */
  method CheckOrder(list: seq<CompletedPart>) returns (ordered: bool)
    ensures ordered <==> Ascending(list)
  {
    var lastN := 0;
    for i := 0 to |list|
      invariant lastN == if i == 0 then 0 else list[i - 1].number
      invariant forall j :: 0 <= j < i ==> list[j].number > Before(list, j)
    {
      if list[i].number <= lastN {
        assert list[i].number <= Before(list, i);
        return false;
      }
      assert list[i].number > Before(list, i);
      lastN := list[i].number;
    }
    return true;
  }

  /** Copies a part's bytes a buffer at a time. */
  method AppendFile(out: bytes, total: nat, input: bytes) returns (grown: bytes, newTotal: nat)
    ensures grown == out + input && newTotal == total + |input|
  {
    grown, newTotal := out, total;
    var read := 0;
    while read < |input|
      invariant read <= |input| && grown == out + input[..read] && newTotal == total + read
    {
      var n := if |input| - read < 65536 then |input| - read else 65536;
      newTotal := newTotal + n;
      assert input[..read] + input[read..read + n] == input[..read + n];
      grown := grown + input[read..read + n];
      read := read + n;
    }
    assert input[..|input|] == input;
  }

  /** Copies the parts one after the other, counting bytes and feeding their digests to the composite. */
  method AssembleParts(md5: Digest, s: Store, q: Place, list: seq<CompletedPart>)
    returns (r: Result<(string, nat, bytes), StorageError>)
    ensures r == match Assemble(s, q, list)
                 case Err(e) => Err(e)
                 case Ok(a) => Ok((CompositeEtag(md5, a.digests, |list|), |a.data|, a.data))
  {
    var out: bytes := [];
    var composite: bytes := [];
    var totalSize := 0;
    for i := 0 to |list|
      invariant Assemble(s, q, list[..i]) == Ok(Assembly(out, composite)) && totalSize == |out|
    {
      assert list[..i + 1][..i] == list[..i];
      AssembleFails(s, q, list, i + 1);
      var p := list[i];
      var path := PartPath(q, p.number);
      if path !in s.files {
        return Err(if path in s.dirs then InvalidPart else XattrError);
      }
      var storedEtag := s.files[path].etag;
      if storedEtag != Some(p.etag) {
        return Err(InvalidPart);
      }
      var rawMd5 := HexDecode(TrimQuotes(p.etag));
      if rawMd5.None? {
        return Err(InvalidPart);
      }
      composite := composite + rawMd5.value;
      out, totalSize := AppendFile(out, totalSize, s.files[path].data);
    }
    assert list[..|list|] == list;
    return Ok((CompositeEtag(md5, composite, |list|), totalSize, out));
  }

  /** A list is as bad as its first bad part. */
  lemma {:induction false} AssembleFails(s: Store, q: Place, list: seq<CompletedPart>, n: nat)
    requires n <= |list|
    ensures Assemble(s, q, list[..n]).Err? ==> Assemble(s, q, list) == Assemble(s, q, list[..n])
  {
    if n < |list| {
      var init := list[..|list| - 1];
      AssembleFails(s, q, init, n);
      assert init[..n] == list[..n];
    } else {
      assert list[..n] == list;
    }
  }

  /** When the first bad part of a list was never uploaded, the answer is an attribute error. */
  lemma MissingPartIsAttributeError(s: Store, q: Place, list: seq<CompletedPart>, n: nat)
    requires n < |list| && Assemble(s, q, list[..n]).Ok?
    requires PartPath(q, list[n].number) !in s.files && PartPath(q, list[n].number) !in s.dirs
    ensures Assemble(s, q, list) == Err(XattrError)
  {
    assert list[..n + 1][..n] == list[..n];
    AssembleFails(s, q, list, n + 1);
  }
}
