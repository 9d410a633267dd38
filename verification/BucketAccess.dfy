/** Bucket visibility: the attribute on the bucket directory and the in-memory cache before it. */
module BucketAccess {
  import opened Types
  import opened TempFile

  function AsStr(a: AccessLevel): string {
    match a
    case Public => "public"
    case Private => "private"
  }

  function FromStr(s: string): Result<AccessLevel, StorageError> {
    if s == "public" then Ok(Public) else if s == "private" then Ok(Private) else Err(InvalidValue)
  }

  /** Bucket directories with their access attribute as found on disk, whatever wrote it. */
  type Dirs = map<string, Option<string>>

  type Cache = map<string, AccessLevel>

  type Answer = Result<Option<AccessLevel>, StorageError>

  /** `wrote` and `empty` are the file system's part of the outcome. */
  datatype Op =
    | Create(name: string, access: AccessLevel, wrote: bool)
    | Update(name: string, access: AccessLevel, wrote: bool)
    | Delete(name: string, empty: bool)
    | ImplicitDir(name: string)
    | Resolve(name: string, own: Option<AccessLevel>)
    | Restart

  /** What the attribute says; a bucket without one is private, a missing directory is an error. */
  function ReadAccess(dirs: Dirs, name: string): Result<AccessLevel, StorageError> {
    if name !in dirs then Err(XattrError)
    else
      match dirs[name]
      case None => Ok(Private)
      case Some(text) => FromStr(text)
  }

  function SetAccess(dirs: Dirs, name: string, access: AccessLevel): Dirs {
    dirs[name := Some(AsStr(access))]
  }

  function Effective(read: Result<AccessLevel, StorageError>): Answer {
    match read
    case Ok(a) => Ok(Some(a))
    case Err(e) => Err(e)
  }

  /** Reading the attribute every time. */
  function StepPlain(dirs: Dirs, op: Op): (Dirs, Answer) {
    match op
    case Create(name, access, wrote) =>
      if !ValidBucketName(name) then (dirs, Err(InvalidKey))
      else
        var made := if name in dirs then dirs else dirs[name := None];
        if wrote then (SetAccess(made, name, access), Ok(None)) else (made, Err(XattrError))
    case Update(name, access, wrote) =>
      if !ValidBucketName(name) then (dirs, Err(InvalidKey))
      else if name !in dirs then (dirs, Err(BucketNotFound))
      else if wrote then (SetAccess(dirs, name, access), Ok(None))
      else (dirs, Err(XattrError))
    case Delete(name, empty) =>
      if !ValidBucketName(name) then (dirs, Err(InvalidKey))
      else if name !in dirs then (dirs, Ok(None))
      else if empty then (dirs - {name}, Ok(None))
      else (dirs, Err(BucketNotEmpty))
    case ImplicitDir(name) => (if name in dirs then dirs else dirs[name := None], Ok(None))
    case Resolve(name, own) =>
      (dirs, if own.Some? then Ok(own) else Effective(ReadAccess(dirs, name)))
    case Restart => (dirs, Ok(None))
  }

  function RunPlain(dirs: Dirs, ops: seq<Op>): (Dirs, seq<Answer>) {
    if ops == [] then (dirs, [])
    else
      var (d, answers) := RunPlain(dirs, ops[..|ops| - 1]);
      var (next, answer) := StepPlain(d, ops[|ops| - 1]);
      (next, answers + [answer])
  }

  /** A cached level is what the attribute would give. */
  ghost predicate CacheAgrees(dirs: Dirs, cache: Cache) {
    forall name :: name in cache ==> ReadAccess(dirs, name) == Ok(cache[name])
  }

  class Buckets {
    var dirs: Dirs
    var cache: Cache

    constructor (dirs: Dirs)
      ensures this.dirs == dirs && CacheAgrees(this.dirs, this.cache)
    {
      this.dirs := dirs;
      this.cache := map[];
    }

    method CreateBucket(name: string, access: AccessLevel, wrote: bool) returns (r: Answer)
      requires CacheAgrees(dirs, cache)
      modifies this
      ensures CacheAgrees(dirs, cache) && (dirs, r) == StepPlain(old(dirs), Create(name, access, wrote))
    {
      if !ValidBucketName(name) {
        return Err(InvalidKey);
      }
      if name !in dirs {
        dirs := dirs[name := None];
      }
      if !wrote {
        return Err(XattrError);
      }
      dirs := SetAccess(dirs, name, access);
      cache := cache[name := access];
      return Ok(None);
    }

    method UpdateBucket(name: string, access: AccessLevel, wrote: bool) returns (r: Answer)
      requires CacheAgrees(dirs, cache)
      modifies this
      ensures CacheAgrees(dirs, cache) && (dirs, r) == StepPlain(old(dirs), Update(name, access, wrote))
    {
      if !ValidBucketName(name) {
        return Err(InvalidKey);
      }
      if name !in dirs {
        return Err(BucketNotFound);
      }
      if !wrote {
        return Err(XattrError);
      }
      dirs := SetAccess(dirs, name, access);
      cache := cache[name := access];
      return Ok(None);
    }

    method DeleteBucket(name: string, empty: bool) returns (r: Answer)
      requires CacheAgrees(dirs, cache)
      modifies this
      ensures CacheAgrees(dirs, cache) && (dirs, r) == StepPlain(old(dirs), Delete(name, empty))
    {
      if !ValidBucketName(name) {
        return Err(InvalidKey);
      }
      if name !in dirs {
        return Ok(None);
      }
      if !empty {
        return Err(BucketNotEmpty);
      }
      dirs := dirs - {name};
      cache := cache - {name};
      return Ok(None);
    }

    /** `create_dir_all` on the way to a nested key. */
    method MakeParent(name: string) returns (r: Answer)
      requires CacheAgrees(dirs, cache)
      modifies this
      ensures CacheAgrees(dirs, cache) && (dirs, r) == StepPlain(old(dirs), ImplicitDir(name))
    {
      if name !in dirs {
        dirs := dirs[name := None];
      }
      return Ok(None);
    }

    method ResolveAccess(own: Option<AccessLevel>, name: string) returns (r: Answer)
      requires CacheAgrees(dirs, cache)
      modifies this`cache
      ensures CacheAgrees(dirs, cache) && (dirs, r) == StepPlain(old(dirs), Resolve(name, own))
    {
      if own.Some? {
        return Ok(own);
      }
      if name in cache {
        return Ok(Some(cache[name]));
      }
      var read := ReadAccess(dirs, name);
      match read
      case Err(e) => return Err(e);
      case Ok(a) =>
        cache := cache[name := a];
        return Ok(Some(a));
    }

    method Reboot() returns (r: Answer)
      modifies this`cache
      ensures CacheAgrees(dirs, cache) && (dirs, r) == StepPlain(old(dirs), Restart)
    {
      cache := map[];
      return Ok(None);
    }

    method Call(op: Op) returns (r: Answer)
      requires CacheAgrees(dirs, cache)
      modifies this
      ensures CacheAgrees(dirs, cache) && (dirs, r) == StepPlain(old(dirs), op)
    {
      match op
      case Create(name, access, wrote) => r := CreateBucket(name, access, wrote);
      case Update(name, access, wrote) => r := UpdateBucket(name, access, wrote);
      case Delete(name, empty) => r := DeleteBucket(name, empty);
      case ImplicitDir(name) => r := MakeParent(name);
      case Resolve(name, own) => r := ResolveAccess(own, name);
      case Restart => r := Reboot();
    }
  }
}
