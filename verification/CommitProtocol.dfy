/**
 * The commit protocol as a state machine over atomic file-system steps.
 *
 * Files are inodes in a heap, a directory maps paths to inodes, and every writer,
 * copier and reader is a process with a program counter. Steps of different
 * processes interleave freely; any number of processes may exist.
 */
module CommitProtocol {
  import opened Types
  import opened Etags
  import opened Sequences
  import opened Keys
  import opened Decimal
  import Multipart

  type Key = string

  type Pid = int

  type Ino = int

  /** Temp files carry a fresh name per process; keys and upload names stand for the paths they resolve to. */
  datatype Path = Temp(owner: Pid) | Object(key: Key) | Part(upload: Multipart.UploadId, number: nat)

  /** `creator` is history: the process whose step made the inode. */
  datatype Inode = Inode(creator: Pid, data: bytes, synced: bool, etag: Option<string>)

  datatype Condition = Plain | IfNoneMatch | IfMatch(expected: string)

  /** Bytes and etag of one upload or assembly that ran to its end. */
  datatype Version = Version(data: bytes, etag: string)

  datatype Origin =
    | Upload
    | CopyOf(src: Key, from: Ino)
    | Assembly(upload: Multipart.UploadId, list: seq<Multipart.CompletedPart>)

  datatype Stage =
    | Streaming(sent: nat)     // temp file holds body[..sent]
    | Assembling(pieces: seq<bytes>, digests: seq<bytes>) // parts copied, raw digests of the parts checked
    | Streamed                 // body complete, digest known
    | Synced                   // sync_data returned
    | Ready                    // If-Match pre-check passed, or attributes copied
    | Tagged                   // attributes written to the temp file
    | LockOpen(lock: Ino)      // lock file opened, waiting for flock
    | LockHeld(lock: Ino)
    | Verified(lock: Ino)      // If-Match re-checked under the lock
    | Renamed(lock: Ino)       // published, lock file still there
    | Unlinked(lock: Ino)      // lock file removed, flock still held
    | Succeeded
    | Failed(published: bool)

  datatype Process =
    | Writer(dest: Path, body: bytes, cond: Condition, origin: Origin, ino: Ino, tag: string, stage: Stage)
    | Reader(key: Key, ino: Ino, size: Option<nat>, etag: Option<Option<string>>)

  /** `used` holds every process name ever taken, `finished` every version that reached its end. */
  datatype System = System(
    heap: map<Ino, Inode>,
    dir: map<Path, Ino>,
    flocks: map<Ino, Pid>,
    procs: map<Pid, Process>,
    used: set<Pid>,
    finished: set<Version>)

  datatype BeginAct =
    | Put(key: Key, body: bytes, cond: Condition, ino: Ino)
    | PutPart(dest: Path, number: nat, body: bytes, ino: Ino)
    | Copy(src: Key, dst: Key, ino: Ino)
    | Assemble(key: Key, upload: Multipart.UploadId, list: seq<Multipart.CompletedPart>, ino: Ino)
    | Open(key: Key)

  /** From the temp file to its attributes. */
  datatype PrepareAct =
    | Chunk(n: nat)
    | CheckPart
    | AppendPart
    | EndStream
    | Sync
    | SkipSync
    | Check
    | Tag

  /** The three commit forms, and a failure of whatever call comes next. */
  datatype CommitAct =
    | Rename(durable: bool)
    | RenameNoReplace
    | OpenLock(ino: Ino)
    | Flock
    | Recheck
    | RenameLocked
    | UnlinkLock
    | Release
    | Abort(cleaned: bool)

  datatype ReadAct = Stat | ReadEtag

  /** `Reap` is one file of a tree that an abort, a clean-up or the collector removes. */
  datatype NameAct = Delete(key: Key) | Move(src: Key, dst: Key) | Sweep(owner: Pid) | Reap(path: Path)

  datatype Step =
    | Begins(pid: Pid, begin: BeginAct)
    | Prepares(pid: Pid, prepare: PrepareAct)
    | Commits(pid: Pid, commit: CommitAct)
    | Reads(pid: Pid, read: ReadAct)
    | Names(name: NameAct)
    | Crash(lost: map<Ino, bytes>)

  const LOCK_SUFFIX := ".lock"

  function LockPath(key: Key): Path {
    Object(key + LOCK_SUFFIX)
  }

  predicate IsLockKey(key: Key) {
    EndsWith(key, LOCK_SUFFIX)
  }

  /** Both spellings of the wildcard match any existing object. */
  predicate Wildcard(expected: string) {
    expected == "*" || expected == "\"*\""
  }

  /** The etag attribute found at a path: an error when the path is missing, `Some(None)` without attribute. */
  function EtagAt(s: System, path: Path): Option<Option<string>> {
    if path in s.dir && s.dir[path] in s.heap then Some(s.heap[s.dir[path]].etag) else None
  }

  /** The If-Match comparison, before the commit and again under the lock. */
  function CheckResult(s: System, path: Path, expected: string): Result<string, StorageError> {
    match EtagAt(s, path)
    case None => Err(XattrError)
    case Some(None) => Err(NotFound)
    case Some(Some(etag)) => if Wildcard(expected) || etag == expected then Ok(etag) else Err(EtagMismatch)
  }

  predicate CheckPasses(s: System, path: Path, expected: string) {
    CheckResult(s, path, expected).Ok?
  }

  /** The raw digest of a listed part, from the etag attribute at its path. */
  function PartDigest(s: System, upload: Multipart.UploadId, part: Multipart.CompletedPart): Option<bytes> {
    if EtagAt(s, Part(upload, part.number)) == Some(Some(part.etag)) then HexDecode(TrimQuotes(part.etag)) else None
  }

  predicate IsWriter(s: System, p: Pid) {
    p in s.procs && s.procs[p].Writer?
  }

  /** The writer's inode is not visible under any name but its temp file's. */
  predicate Unpublished(stage: Stage) {
    stage.Streaming? || stage.Assembling? || stage.Streamed? || stage.Synced? || stage.Ready? || stage.Tagged?
    || stage.LockOpen? || stage.LockHeld? || stage.Verified?
  }

  predicate Published(stage: Stage) {
    stage.Renamed? || stage.Unlinked? || stage.Succeeded? || (stage.Failed? && stage.published)
  }

  predicate HasLock(stage: Stage) {
    stage.LockOpen? || HoldsLock(stage)
  }

  predicate HoldsLock(stage: Stage) {
    stage.LockHeld? || stage.Verified? || stage.Renamed? || stage.Unlinked?
  }

  /** A part's file is named by its number; an upload name may lead into a bucket. */
  predicate PartFile(path: Path, number: nat) {
    match path
    case Temp(_) => false
    case Part(_, n) => n == number
    case Object(key) => key == ToDecimal(number) || EndsWith(key, "/" + ToDecimal(number))
  }

  predicate CanBegin(s: System, p: Pid, act: BeginAct) {
    p !in s.used &&
    match act
    case Put(key, body, cond, ino) => ino !in s.heap
    case PutPart(dest, number, body, ino) => ino !in s.heap && 1 <= number <= 10_000 && PartFile(dest, number)
    case Assemble(key, upload, list, ino) => ino !in s.heap && list != [] && Multipart.Ascending(list)
    case Copy(src, dst, ino) => ino !in s.heap && Object(src) in s.dir && s.dir[Object(src)] in s.heap
    case Open(key) => Object(key) in s.dir
  }

  predicate Gathering(w: Process) {
    w.Writer? && w.stage.Assembling? && w.origin.Assembly? && |w.stage.pieces| <= |w.origin.list|
    && |w.stage.digests| <= |w.origin.list|
  }

  predicate CanPrepare(s: System, p: Pid, act: PrepareAct) {
    IsWriter(s, p) && s.procs[p].ino in s.heap &&
    var w := s.procs[p];
    match act
    case Chunk(n) => w.stage.Streaming? && 0 < n <= |w.body| - w.stage.sent
    case CheckPart => Gathering(w) && |w.stage.digests| == |w.stage.pieces| < |w.origin.list|
    case AppendPart =>
      Gathering(w) && |w.stage.pieces| < |w.stage.digests|
      && var part := Part(w.origin.upload, w.origin.list[|w.stage.pieces|].number);
         part in s.dir ==> s.dir[part] in s.heap
    case EndStream =>
      || w.stage == Streaming(|w.body|)
      || (Gathering(w) && |w.stage.digests| == |w.stage.pieces| == |w.origin.list|)
    case Sync => w.stage.Streamed?
    case SkipSync => w.stage.Streamed? && w.origin.CopyOf?
    case Check => w.stage.Synced?
    case Tag => w.stage.Ready? && (Temp(p) in s.dir ==> s.dir[Temp(p)] in s.heap)
  }

  predicate CanCommit(s: System, p: Pid, act: CommitAct) {
    IsWriter(s, p) &&
    var w := s.procs[p];
    match act
    case Rename(durable) => w.stage.Tagged? && w.cond.Plain?
    case RenameNoReplace => w.stage.Tagged? && w.cond.IfNoneMatch?
    case OpenLock(ino) =>
      w.stage.Tagged? && w.cond.IfMatch? && w.dest.Object? && (LockPath(w.dest.key) in s.dir || ino !in s.heap)
    case Flock => w.stage.LockOpen? && w.stage.lock !in s.flocks
    case Recheck => w.stage.LockHeld? && w.cond.IfMatch?
    case RenameLocked => w.stage.Verified?
    case UnlinkLock => w.stage.Renamed? && w.dest.Object?
    case Release => w.stage.Unlinked?
    case Abort(cleaned) => Unpublished(w.stage) || w.stage.Renamed?
  }

  predicate CanRead(s: System, p: Pid) {
    p in s.procs && s.procs[p].Reader? && s.procs[p].ino in s.heap
  }

  predicate CanName(s: System, act: NameAct) {
    act.Move? ==> Object(act.src) in s.dir
  }

  predicate CanCrash(s: System, lost: map<Ino, bytes>) {
    forall i :: i in s.heap ==> i in lost
  }

  predicate Can(s: System, a: Step) {
    match a
    case Begins(p, act) => CanBegin(s, p, act)
    case Prepares(p, act) => CanPrepare(s, p, act)
    case Commits(p, act) => CanCommit(s, p, act)
    case Reads(p, act) => CanRead(s, p)
    case Names(act) => CanName(s, act)
    case Crash(lost) => CanCrash(s, lost)
  }

  function Create(s: System, p: Pid, path: Path, ino: Ino): System {
    s.(heap := s.heap[ino := Inode(p, [], false, None)], dir := s.dir[path := ino])
  }

  function SetProc(s: System, p: Pid, w: Process): System {
    s.(procs := s.procs[p := w])
  }

  function SetStage(s: System, p: Pid, stage: Stage): System
    requires IsWriter(s, p)
  {
    SetProc(s, p, s.procs[p].(stage := stage))
  }

  /** The process drops its lock handle when it returns, which releases a held flock. */
  function Unlock(s: System, p: Pid): System
    requires IsWriter(s, p)
  {
    if HoldsLock(s.procs[p].stage) then s.(flocks := s.flocks - {s.procs[p].stage.lock}) else s
  }

  function Fail(s: System, p: Pid, cleaned: bool): System
    requires IsWriter(s, p)
  {
    var u := Unlock(s, p);
    var v := if cleaned then u.(dir := u.dir - {Temp(p)}) else u;
    SetStage(v, p, Failed(Published(s.procs[p].stage)))
  }

  /** rename(2): the target name now leads to the source's inode, the source name is gone. */
  function MovePath(dir: map<Path, Ino>, from: Path, to: Path): map<Path, Ino>
    requires from in dir
  {
    (dir - {from})[to := dir[from]]
  }

  function Publish(s: System, p: Pid, stage: Stage): System
    requires IsWriter(s, p) && Temp(p) in s.dir
  {
    SetStage(s.(dir := MovePath(s.dir, Temp(p), s.procs[p].dest)), p, stage)
  }

  function DoBegin(s: System, p: Pid, act: BeginAct): System
    requires CanBegin(s, p, act)
  {
    match act
    case Put(key, body, cond, ino) =>
      SetProc(Create(s, p, Temp(p), ino), p, Writer(Object(key), body, cond, Upload, ino, "", Streaming(0)))
      .(used := s.used + {p})
    case PutPart(dest, number, body, ino) =>
      SetProc(Create(s, p, Temp(p), ino), p, Writer(dest, body, Plain, Upload, ino, "", Streaming(0)))
      .(used := s.used + {p})
    case Assemble(key, upload, list, ino) =>
      SetProc(Create(s, p, Temp(p), ino), p,
              Writer(Object(key), [], Plain, Assembly(upload, list), ino, "", Assembling([], [])))
      .(used := s.used + {p})
    case Copy(src, dst, ino) =>
      var from := s.dir[Object(src)];
      SetProc(Create(s, p, Temp(p), ino), p,
              Writer(Object(dst), s.heap[from].data, Plain, CopyOf(src, from), ino, "", Streaming(0)))
      .(used := s.used + {p})
    case Open(key) =>
      SetProc(s, p, Reader(key, s.dir[Object(key)], None, None)).(used := s.used + {p})
  }

  /** `xattr::get` on the destination, or for a copy `read_object` on the source path. */
  function DoCheck(s: System, p: Pid): System
    requires CanPrepare(s, p, Check)
  {
    var w := s.procs[p];
    if w.origin.CopyOf? then
      match EtagAt(s, Object(w.origin.src))
      case None => Fail(s, p, false)
      case Some(found) =>
        SetProc(s, p, w.(tag := if found.Some? then found.value else "", stage := Ready))
    else if w.cond.IfMatch? && !CheckPasses(s, w.dest, w.cond.expected) then
      Fail(s, p, CheckResult(s, w.dest, w.cond.expected) != Err(XattrError))
    else
      SetStage(s, p, Ready)
  }

  /** The next listed part's tag: it must be the listed one and decode. */
  function DoCheckPart(s: System, p: Pid): System
    requires CanPrepare(s, p, CheckPart)
  {
    var w := s.procs[p];
    match PartDigest(s, w.origin.upload, w.origin.list[|w.stage.pieces|])
    case None => Fail(s, p, true)
    case Some(raw) => SetStage(s, p, Assembling(w.stage.pieces, w.stage.digests + [raw]))
  }

  /** The part is opened by path again and copied; a visible inode never changes, so one step will do. */
  function DoAppendPart(s: System, p: Pid): System
    requires CanPrepare(s, p, AppendPart)
  {
    var w := s.procs[p];
    var part := Part(w.origin.upload, w.origin.list[|w.stage.pieces|].number);
    if part !in s.dir then Fail(s, p, true)
    else
      var piece := s.heap[s.dir[part]].data;
      var inode := s.heap[w.ino];
      SetProc(s.(heap := s.heap[w.ino := inode.(data := inode.data + piece)]), p,
              w.(body := w.body + piece, stage := Assembling(w.stage.pieces + [piece], w.stage.digests)))
  }

  /** The end of the body: the tag is known, and the version counts as finished. */
  function DoEndStream(md5: Digest, s: System, p: Pid): System
    requires CanPrepare(s, p, EndStream)
  {
    var w := s.procs[p];
    if w.origin.CopyOf? then SetStage(s, p, Streamed)
    else
      var tag := if w.stage.Assembling? then CompositeEtag(md5, Flatten(w.stage.digests), |w.origin.list|)
                 else EtagOf(md5, w.body);
      SetProc(s, p, w.(tag := tag, stage := Streamed)).(finished := s.finished + {Version(w.body, tag)})
  }

  function DoPrepare(md5: Digest, s: System, p: Pid, act: PrepareAct): System
    requires CanPrepare(s, p, act)
  {
    var w := s.procs[p];
    var inode := s.heap[w.ino];
    match act
    case Chunk(n) =>
      var next := inode.data + w.body[w.stage.sent..w.stage.sent + n];
      SetStage(s.(heap := s.heap[w.ino := inode.(data := next)]), p, Streaming(w.stage.sent + n))
    case CheckPart => DoCheckPart(s, p)
    case AppendPart => DoAppendPart(s, p)
    case EndStream => DoEndStream(md5, s, p)
    case Sync => SetStage(s.(heap := s.heap[w.ino := inode.(synced := true)]), p, Synced)
    case SkipSync => SetStage(s, p, Synced)
    case Check => DoCheck(s, p)
    case Tag =>
      if Temp(p) in s.dir then
        var ino := s.dir[Temp(p)];
        SetStage(s.(heap := s.heap[ino := s.heap[ino].(etag := Some(w.tag))]), p, Tagged)
      else
        Fail(s, p, false)
  }

  function DoCommit(s: System, p: Pid, act: CommitAct): System
    requires CanCommit(s, p, act)
  {
    var w := s.procs[p];
    match act
    case Rename(durable) =>
      if Temp(p) in s.dir then Publish(s, p, if durable then Succeeded else Failed(true)) else Fail(s, p, false)
    case RenameNoReplace =>
      if Temp(p) in s.dir && w.dest !in s.dir then Publish(s, p, Succeeded) else Fail(s, p, true)
    case OpenLock(ino) =>
      var lock := LockPath(w.dest.key);
      if lock in s.dir then SetStage(s, p, LockOpen(s.dir[lock]))
      else SetStage(Create(s, p, lock, ino), p, LockOpen(ino))
    case Flock => SetStage(s.(flocks := s.flocks[w.stage.lock := p]), p, LockHeld(w.stage.lock))
    case Recheck =>
      if CheckPasses(s, w.dest, w.cond.expected) then SetStage(s, p, Verified(w.stage.lock)) else Fail(s, p, false)
    case RenameLocked =>
      if Temp(p) in s.dir then Publish(s, p, Renamed(w.stage.lock)) else Fail(s, p, false)
    case UnlinkLock => SetStage(s.(dir := s.dir - {LockPath(w.dest.key)}), p, Unlinked(w.stage.lock))
    case Release => SetStage(Unlock(s, p), p, Succeeded)
    case Abort(cleaned) => Fail(s, p, cleaned)
  }

  function DoRead(s: System, p: Pid, act: ReadAct): System
    requires CanRead(s, p)
  {
    var inode := s.heap[s.procs[p].ino];
    match act
    case Stat => SetProc(s, p, s.procs[p].(size := Some(|inode.data|)))
    case ReadEtag => SetProc(s, p, s.procs[p].(etag := Some(inode.etag)))
  }

  function DoName(s: System, act: NameAct): System
    requires CanName(s, act)
  {
    match act
    case Delete(key) => s.(dir := s.dir - {Object(key)})
    case Move(src, dst) => s.(dir := MovePath(s.dir, Object(src), Object(dst)))
    case Sweep(owner) => s.(dir := s.dir - {Temp(owner)})
    case Reap(path) => s.(dir := s.dir - {path})
  }

  /** A machine crash ends every process and may garble whatever was never synced. */
  function DoCrash(s: System, lost: map<Ino, bytes>): System
    requires CanCrash(s, lost)
  {
    var heap := map i | i in s.heap :: if s.heap[i].synced then s.heap[i] else s.heap[i].(data := lost[i]);
    s.(heap := heap, flocks := map[], procs := map[])
  }

  function Do(md5: Digest, s: System, a: Step): System
    requires Can(s, a)
  {
    match a
    case Begins(p, act) => DoBegin(s, p, act)
    case Prepares(p, act) => DoPrepare(md5, s, p, act)
    case Commits(p, act) => DoCommit(s, p, act)
    case Reads(p, act) => DoRead(s, p, act)
    case Names(act) => DoName(s, act)
    case Crash(lost) => DoCrash(s, lost)
  }

  /** The steps can be taken one after the other from `s`. */
  predicate Legal(md5: Digest, s: System, steps: seq<Step>)
    decreases |steps|
  {
    steps == [] || (Can(s, steps[0]) && Legal(md5, Do(md5, s, steps[0]), steps[1..]))
  }

  function Run(md5: Digest, s: System, steps: seq<Step>): System
    requires Legal(md5, s, steps)
    decreases |steps|
  {
    if steps == [] then s else Run(md5, Do(md5, s, steps[0]), steps[1..])
  }

  /** No file, no process. */
  const EMPTY := System(map[], map[], map[], map[], {}, {})

  // ---- What every legal run keeps ----

  predicate TagKnown(stage: Stage) {
    Unpublished(stage) && !stage.Streaming? && !stage.Assembling?
  }

  predicate SyncReturned(stage: Stage) {
    TagKnown(stage) && !stage.Streamed?
  }

  predicate AttributesSet(stage: Stage) {
    SyncReturned(stage) && !stage.Synced? && !stage.Ready?
  }

  /** No key, part, reader or copy refers to the inode. */
  ghost predicate Hidden(s: System, ino: Ino) {
    && (forall path :: path in s.dir && !path.Temp? ==> s.dir[path] != ino)
    && (forall q :: q in s.procs && s.procs[q].Reader? ==> s.procs[q].ino != ino)
    && (forall q :: IsWriter(s, q) && s.procs[q].origin.CopyOf? ==> s.procs[q].origin.from != ino)
  }

  ghost predicate WriterOk(md5: Digest, s: System, p: Pid)
    requires IsWriter(s, p)
  {
    var w := s.procs[p];
    && w.ino in s.heap && s.heap[w.ino].creator == p
    && !w.dest.Temp? && (w.dest.Part? ==> w.origin.Upload?)
    && (!w.cond.Plain? ==> w.dest.Object? && w.origin.Upload?)
    && (w.origin.CopyOf? ==> w.origin.from in s.heap)
    && (w.stage.Assembling? ==> w.origin.Assembly? && |w.stage.pieces| <= |w.stage.digests| <= |w.origin.list|)
    && (Temp(p) in s.dir ==> s.dir[Temp(p)] == w.ino)
    && (HasLock(w.stage) ==> w.cond.IfMatch?)
    && (HoldsLock(w.stage) ==> w.stage.lock in s.flocks && s.flocks[w.stage.lock] == p)
    && (Unpublished(w.stage) ==>
          && Hidden(s, w.ino)
          && (w.stage.Streaming? ==> w.stage.sent <= |w.body| && s.heap[w.ino].data == w.body[..w.stage.sent])
          && (!w.stage.Streaming? ==> s.heap[w.ino].data == w.body)
          && (TagKnown(w.stage) && w.origin.Upload? ==> w.tag == EtagOf(md5, w.body))
          && (TagKnown(w.stage) && !w.origin.CopyOf? ==> Version(w.body, w.tag) in s.finished)
          && (SyncReturned(w.stage) && !w.origin.CopyOf? ==> s.heap[w.ino].synced)
          && (!SyncReturned(w.stage) ==> !s.heap[w.ino].synced)
          && (AttributesSet(w.stage) ==> s.heap[w.ino].etag == Some(w.tag)))
  }

  ghost predicate WellFormed(md5: Digest, s: System) {
    && s.procs.Keys <= s.used
    && (forall path :: path in s.dir ==> s.dir[path] in s.heap)
    && (forall p :: Temp(p) in s.dir ==> p in s.used)
    && (forall p :: p in s.procs && s.procs[p].Reader? ==> s.procs[p].ino in s.heap && Temp(p) !in s.dir)
    && (forall p :: IsWriter(s, p) ==> WriterOk(md5, s, p))
  }

  /** What a step must leave alone for writer `q` to notice nothing. */
  ghost predicate Undisturbed(s: System, t: System, q: Pid)
    requires IsWriter(s, q)
  {
    var w := s.procs[q];
    && q in t.procs && t.procs[q] == w
    && (w.ino in s.heap ==> w.ino in t.heap && t.heap[w.ino] == s.heap[w.ino])
    && (w.origin.CopyOf? && w.origin.from in s.heap ==> w.origin.from in t.heap)
    && (Temp(q) in t.dir ==> Temp(q) in s.dir && t.dir[Temp(q)] == s.dir[Temp(q)])
    && (HoldsLock(w.stage) && w.stage.lock in s.flocks && s.flocks[w.stage.lock] == q ==>
          w.stage.lock in t.flocks && t.flocks[w.stage.lock] == q)
    && s.finished <= t.finished
    && (Unpublished(w.stage) && Hidden(s, w.ino) ==> Hidden(t, w.ino))
  }

  lemma UndisturbedWriterOk(md5: Digest, s: System, t: System, q: Pid)
    requires IsWriter(s, q) && WriterOk(md5, s, q) && Undisturbed(s, t, q)
    ensures IsWriter(t, q) && WriterOk(md5, t, q)
  {
  }

  /** Between `s` and `t` only process `p`, its own inode and the names it may change differ. */
  ghost predicate LocalStep(s: System, t: System, p: Pid)
    requires IsWriter(s, p)
  {
    var ino := s.procs[p].ino;
    && IsWriter(t, p)
    && t.procs == s.procs[p := t.procs[p]]
    && t.procs[p].ino == ino && t.procs[p].origin == s.procs[p].origin
    && t.used == s.used
    && s.finished <= t.finished
    && (forall i :: i in s.heap ==> i in t.heap && (i != ino ==> t.heap[i] == s.heap[i]))
    && (forall path :: path in t.dir ==>
          || (path in s.dir && t.dir[path] == s.dir[path])
          || (!path.Temp? && t.dir[path] in t.heap && (t.dir[path] == ino || t.dir[path] !in s.heap)))
    && (forall l :: l in s.flocks && s.flocks[l] != p ==> l in t.flocks && t.flocks[l] == s.flocks[l])
  }

  lemma LocalStepKeepsOthers(md5: Digest, s: System, t: System, p: Pid, q: Pid)
    requires WellFormed(md5, s) && IsWriter(s, p) && LocalStep(s, t, p)
    requires IsWriter(s, q) && q != p
    ensures IsWriter(t, q) && WriterOk(md5, t, q)
  {
    assert WriterOk(md5, s, q);
    var w := s.procs[q];
    if Unpublished(w.stage) {
      assert Hidden(s, w.ino);
      forall path | path in t.dir && !path.Temp? ensures t.dir[path] != w.ino {}
      assert Hidden(t, w.ino);
    }
  }

  lemma LocalStepKeepsWellFormed(md5: Digest, s: System, t: System, p: Pid)
    requires WellFormed(md5, s) && IsWriter(s, p) && LocalStep(s, t, p)
    requires WriterOk(md5, t, p)
    ensures WellFormed(md5, t)
  {
    forall q | IsWriter(t, q) ensures WriterOk(md5, t, q) {
      if q != p {
        LocalStepKeepsOthers(md5, s, t, p, q);
      }
    }
  }

  lemma StageStepKeepsHidden(s: System, t: System, p: Pid, ino: Ino)
    requires IsWriter(s, p) && LocalStep(s, t, p) && Hidden(s, ino)
    requires ino in s.heap
    requires forall path :: path in t.dir && !path.Temp? && t.dir[path] in s.heap ==>
               path in s.dir && t.dir[path] == s.dir[path]
    ensures Hidden(t, ino)
  {
  }

  lemma FailKeepsWellFormed(md5: Digest, s: System, p: Pid, cleaned: bool)
    requires WellFormed(md5, s) && IsWriter(s, p)
    ensures WellFormed(md5, Fail(s, p, cleaned))
  {
    assert WriterOk(md5, s, p);
    LocalStepKeepsWellFormed(md5, s, Fail(s, p, cleaned), p);
  }

  lemma ChunkKeepsWellFormed(md5: Digest, s: System, p: Pid, n: nat)
    requires WellFormed(md5, s) && CanPrepare(s, p, Chunk(n))
    ensures WellFormed(md5, DoPrepare(md5, s, p, Chunk(n)))
  {
    var t := DoPrepare(md5, s, p, Chunk(n));
    var w := s.procs[p];
    assert WriterOk(md5, s, p);
    assert w.body[..w.stage.sent] + w.body[w.stage.sent..w.stage.sent + n] == w.body[..w.stage.sent + n];
    StageStepKeepsHidden(s, t, p, w.ino);
    LocalStepKeepsWellFormed(md5, s, t, p);
  }

  lemma CheckPartKeepsWellFormed(md5: Digest, s: System, p: Pid)
    requires WellFormed(md5, s) && CanPrepare(s, p, CheckPart)
    ensures WellFormed(md5, DoCheckPart(s, p))
  {
    var t := DoCheckPart(s, p);
    assert WriterOk(md5, s, p);
    if t.procs[p].stage.Failed? {
      FailKeepsWellFormed(md5, s, p, true);
    } else {
      StageStepKeepsHidden(s, t, p, s.procs[p].ino);
      LocalStepKeepsWellFormed(md5, s, t, p);
    }
  }

  lemma AppendPartKeepsWellFormed(md5: Digest, s: System, p: Pid)
    requires WellFormed(md5, s) && CanPrepare(s, p, AppendPart)
    ensures WellFormed(md5, DoAppendPart(s, p))
  {
    var t := DoAppendPart(s, p);
    assert WriterOk(md5, s, p);
    if t.procs[p].stage.Failed? {
      FailKeepsWellFormed(md5, s, p, true);
    } else {
      StageStepKeepsHidden(s, t, p, s.procs[p].ino);
      LocalStepKeepsWellFormed(md5, s, t, p);
    }
  }

  lemma EndStreamKeepsWellFormed(md5: Digest, s: System, p: Pid)
    requires WellFormed(md5, s) && CanPrepare(s, p, EndStream)
    ensures WellFormed(md5, DoPrepare(md5, s, p, EndStream))
  {
    var t := DoPrepare(md5, s, p, EndStream);
    var w := s.procs[p];
    assert WriterOk(md5, s, p);
    assert w.body[..|w.body|] == w.body;
    StageStepKeepsHidden(s, t, p, w.ino);
    LocalStepKeepsWellFormed(md5, s, t, p);
  }

  lemma SyncKeepsWellFormed(md5: Digest, s: System, p: Pid, act: PrepareAct)
    requires WellFormed(md5, s) && CanPrepare(s, p, act) && (act.Sync? || act.SkipSync?)
    ensures WellFormed(md5, DoPrepare(md5, s, p, act))
  {
    var t := DoPrepare(md5, s, p, act);
    assert WriterOk(md5, s, p);
    StageStepKeepsHidden(s, t, p, s.procs[p].ino);
    LocalStepKeepsWellFormed(md5, s, t, p);
  }

  lemma CheckKeepsWellFormed(md5: Digest, s: System, p: Pid)
    requires WellFormed(md5, s) && CanPrepare(s, p, Check)
    ensures WellFormed(md5, DoCheck(s, p))
  {
    var t := DoCheck(s, p);
    var w := s.procs[p];
    assert WriterOk(md5, s, p);
    if t.procs[p].stage.Failed? {
      FailKeepsWellFormed(md5, s, p, w.origin.Upload? && CheckResult(s, w.dest, w.cond.expected) != Err(XattrError));
    } else {
      StageStepKeepsHidden(s, t, p, w.ino);
      LocalStepKeepsWellFormed(md5, s, t, p);
    }
  }

  lemma TagKeepsWellFormed(md5: Digest, s: System, p: Pid)
    requires WellFormed(md5, s) && CanPrepare(s, p, Tag)
    ensures WellFormed(md5, DoPrepare(md5, s, p, Tag))
  {
    var t := DoPrepare(md5, s, p, Tag);
    assert WriterOk(md5, s, p);
    if Temp(p) in s.dir {
      StageStepKeepsHidden(s, t, p, s.procs[p].ino);
      LocalStepKeepsWellFormed(md5, s, t, p);
    } else {
      FailKeepsWellFormed(md5, s, p, false);
    }
  }

  lemma PrepareKeepsWellFormed(md5: Digest, s: System, p: Pid, act: PrepareAct)
    requires WellFormed(md5, s) && CanPrepare(s, p, act)
    ensures WellFormed(md5, DoPrepare(md5, s, p, act))
  {
    match act
    case Chunk(n) => ChunkKeepsWellFormed(md5, s, p, n);
    case EndStream => EndStreamKeepsWellFormed(md5, s, p);
    case CheckPart => CheckPartKeepsWellFormed(md5, s, p);
    case AppendPart => AppendPartKeepsWellFormed(md5, s, p);
    case Check => CheckKeepsWellFormed(md5, s, p);
    case Tag => TagKeepsWellFormed(md5, s, p);
    case _ => SyncKeepsWellFormed(md5, s, p, act);
  }

  lemma PublishKeepsWellFormed(md5: Digest, s: System, p: Pid, stage: Stage)
    requires WellFormed(md5, s) && IsWriter(s, p) && Temp(p) in s.dir
    requires Published(stage) && !stage.Unlinked?
    requires stage.Renamed? ==> s.procs[p].stage == Verified(stage.lock)
    ensures WellFormed(md5, Publish(s, p, stage))
  {
    assert WriterOk(md5, s, p);
    LocalStepKeepsWellFormed(md5, s, Publish(s, p, stage), p);
  }

  lemma OpenLockKeepsWellFormed(md5: Digest, s: System, p: Pid, ino: Ino)
    requires WellFormed(md5, s) && CanCommit(s, p, OpenLock(ino))
    ensures WellFormed(md5, DoCommit(s, p, OpenLock(ino)))
  {
    var t := DoCommit(s, p, OpenLock(ino));
    assert WriterOk(md5, s, p);
    StageStepKeepsHidden(s, t, p, s.procs[p].ino);
    LocalStepKeepsWellFormed(md5, s, t, p);
  }

  lemma FlockKeepsWellFormed(md5: Digest, s: System, p: Pid)
    requires WellFormed(md5, s) && CanCommit(s, p, Flock)
    ensures WellFormed(md5, DoCommit(s, p, Flock))
  {
    var t := DoCommit(s, p, Flock);
    assert WriterOk(md5, s, p);
    StageStepKeepsHidden(s, t, p, s.procs[p].ino);
    LocalStepKeepsWellFormed(md5, s, t, p);
  }

  lemma RecheckKeepsWellFormed(md5: Digest, s: System, p: Pid)
    requires WellFormed(md5, s) && CanCommit(s, p, Recheck)
    ensures WellFormed(md5, DoCommit(s, p, Recheck))
  {
    var t := DoCommit(s, p, Recheck);
    assert WriterOk(md5, s, p);
    if t.procs[p].stage.Failed? {
      FailKeepsWellFormed(md5, s, p, false);
    } else {
      StageStepKeepsHidden(s, t, p, s.procs[p].ino);
      LocalStepKeepsWellFormed(md5, s, t, p);
    }
  }

  lemma UnlockKeepsWellFormed(md5: Digest, s: System, p: Pid, act: CommitAct)
    requires WellFormed(md5, s) && CanCommit(s, p, act) && (act.UnlinkLock? || act.Release?)
    ensures WellFormed(md5, DoCommit(s, p, act))
  {
    assert WriterOk(md5, s, p);
    LocalStepKeepsWellFormed(md5, s, DoCommit(s, p, act), p);
  }

  lemma RenameKeepsWellFormed(md5: Digest, s: System, p: Pid, act: CommitAct)
    requires WellFormed(md5, s) && CanCommit(s, p, act) && (act.Rename? || act.RenameNoReplace? || act.RenameLocked?)
    ensures WellFormed(md5, DoCommit(s, p, act))
  {
    var t := DoCommit(s, p, act);
    if t.procs[p].stage == Failed(false) {
      FailKeepsWellFormed(md5, s, p, act.RenameNoReplace?);
    } else {
      PublishKeepsWellFormed(md5, s, p, t.procs[p].stage);
    }
  }

  lemma CommitKeepsWellFormed(md5: Digest, s: System, p: Pid, act: CommitAct)
    requires WellFormed(md5, s) && CanCommit(s, p, act)
    ensures WellFormed(md5, DoCommit(s, p, act))
  {
    match act
    case OpenLock(ino) => OpenLockKeepsWellFormed(md5, s, p, ino);
    case Flock => FlockKeepsWellFormed(md5, s, p);
    case Recheck => RecheckKeepsWellFormed(md5, s, p);
    case UnlinkLock => UnlockKeepsWellFormed(md5, s, p, act);
    case Release => UnlockKeepsWellFormed(md5, s, p, act);
    case Abort(cleaned) => FailKeepsWellFormed(md5, s, p, cleaned);
    case _ => RenameKeepsWellFormed(md5, s, p, act);
  }

  /** A new process arrives: with a fresh temp file, or as a reader of a visible inode. */
  ghost predicate Arrival(s: System, t: System, p: Pid)
  {
    && p !in s.used && p in t.procs && t.procs == s.procs[p := t.procs[p]]
    && t.used == s.used + {p} && t.flocks == s.flocks && t.finished == s.finished
    && (forall i :: i in s.heap ==> i in t.heap && t.heap[i] == s.heap[i])
    && if t.procs[p].Reader? then t.dir == s.dir && Visible(s, t.procs[p].ino)
       else t.procs[p].ino !in s.heap && t.dir == s.dir[Temp(p) := t.procs[p].ino]
            && (t.procs[p].origin.CopyOf? ==> Visible(s, t.procs[p].origin.from))
  }

  ghost predicate Visible(s: System, ino: Ino) {
    exists path :: path in s.dir && !path.Temp? && s.dir[path] == ino
  }

  lemma ArrivalKeepsOthers(md5: Digest, s: System, t: System, p: Pid, q: Pid)
    requires WellFormed(md5, s) && Arrival(s, t, p)
    requires IsWriter(s, q) && q != p
    ensures IsWriter(t, q) && WriterOk(md5, t, q)
  {
    assert WriterOk(md5, s, q);
    UndisturbedWriterOk(md5, s, t, q);
  }

  lemma ArrivalKeepsWellFormed(md5: Digest, s: System, t: System, p: Pid)
    requires WellFormed(md5, s) && Arrival(s, t, p)
    requires t.procs[p].Writer? ==> WriterOk(md5, t, p)
    ensures WellFormed(md5, t)
  {
    forall path | path in t.dir ensures t.dir[path] in t.heap {
      assert path == Temp(p) || (path in s.dir && t.dir[path] == s.dir[path]);
    }
    forall q | IsWriter(t, q) && q != p ensures WriterOk(md5, t, q) {
      ArrivalKeepsOthers(md5, s, t, p, q);
    }
  }

  lemma NewcomerIsArrival(md5: Digest, s: System, p: Pid, act: BeginAct)
    requires WellFormed(md5, s) && CanBegin(s, p, act)
    ensures Arrival(s, DoBegin(s, p, act), p)
  {
  }

  lemma NewWriterOk(md5: Digest, s: System, p: Pid, act: BeginAct)
    requires WellFormed(md5, s) && CanBegin(s, p, act) && !act.Open?
    ensures WriterOk(md5, DoBegin(s, p, act), p)
  {
    var t := DoBegin(s, p, act);
    var ino := t.procs[p].ino;
    forall q | IsWriter(s, q) && s.procs[q].origin.CopyOf? ensures s.procs[q].origin.from != ino {
      assert WriterOk(md5, s, q);
    }
    assert Hidden(t, ino);
  }

  lemma BeginKeepsWellFormed(md5: Digest, s: System, p: Pid, act: BeginAct)
    requires WellFormed(md5, s) && CanBegin(s, p, act)
    ensures WellFormed(md5, DoBegin(s, p, act))
  {
    NewcomerIsArrival(md5, s, p, act);
    if !act.Open? {
      NewWriterOk(md5, s, p, act);
    }
    ArrivalKeepsWellFormed(md5, s, DoBegin(s, p, act), p);
  }

  /** Steps that only rename or remove whole names. */
  lemma NameStepKeepsWellFormed(md5: Digest, s: System, act: NameAct)
    requires WellFormed(md5, s) && CanName(s, act)
    ensures WellFormed(md5, DoName(s, act))
  {
    var t := DoName(s, act);
    forall q | IsWriter(t, q) ensures WriterOk(md5, t, q) {
      assert WriterOk(md5, s, q);
      UndisturbedWriterOk(md5, s, t, q);
    }
  }

  lemma ReadKeepsWellFormed(md5: Digest, s: System, p: Pid, act: ReadAct)
    requires WellFormed(md5, s) && CanRead(s, p)
    ensures WellFormed(md5, DoRead(s, p, act))
  {
    var t := DoRead(s, p, act);
    forall q | IsWriter(t, q) ensures WriterOk(md5, t, q) {
      assert WriterOk(md5, s, q);
      UndisturbedWriterOk(md5, s, t, q);
    }
  }

  /** Every step of every process keeps the structural invariant. */
  lemma StepKeepsWellFormed(md5: Digest, s: System, a: Step)
    requires WellFormed(md5, s) && Can(s, a)
    ensures WellFormed(md5, Do(md5, s, a))
  {
    match a
    case Begins(p, act) => BeginKeepsWellFormed(md5, s, p, act);
    case Prepares(p, act) => PrepareKeepsWellFormed(md5, s, p, act);
    case Commits(p, act) => CommitKeepsWellFormed(md5, s, p, act);
    case Reads(p, act) => ReadKeepsWellFormed(md5, s, p, act);
    case Names(act) => NameStepKeepsWellFormed(md5, s, act);
    case Crash(_) =>
  }

  lemma {:induction false} RunKeepsWellFormed(md5: Digest, s: System, steps: seq<Step>)
    requires WellFormed(md5, s) && Legal(md5, s, steps)
    ensures WellFormed(md5, Run(md5, s, steps))
    decreases |steps|
  {
    if steps == [] {
    } else {
      StepKeepsWellFormed(md5, s, steps[0]);
      RunKeepsWellFormed(md5, Do(md5, s, steps[0]), steps[1..]);
    }
  }
}
