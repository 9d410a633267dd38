/**
 * What each writing call does when nothing interferes.
 *
 * The call's steps, taken by one process alone and without faults, lead to what a sequential
 * reading of the call says: when it is refused, and what its key or part holds afterwards.
 */
module LoneCalls {
  import opened Types
  import opened Etags
  import opened Sequences
  import opened CommitProtocol
  import opened CommitSafety
  import opened CompareAndSwap
  import opened GuardedSwap
  import opened CommitRuns
  import opened SharedExpectation
  import Multipart

  // ---- The sequential reading ----

  function DestOf(call: BeginAct): Path
    requires !call.Open?
  {
    match call
    case Put(key, _, _, _) => Object(key)
    case PutPart(dest, _, _, _) => dest
    case Copy(_, dst, _) => Object(dst)
    case Assemble(key, _, _, _) => Object(key)
  }

  function CondOf(call: BeginAct): Condition {
    if call.Put? then call.cond else Plain
  }

  /** The file at a path, if there is one. */
  function FileAt(s: System, path: Path): Option<Inode> {
    if path in s.dir && s.dir[path] in s.heap then Some(s.heap[s.dir[path]]) else None
  }

  /** Which existing objects an If-Match accepts: any that has an etag for the two wildcards, else the one named. */
  predicate Matches(expected: string, found: Option<Inode>) {
    && found.Some? && found.value.etag.Some?
    && (expected == "*" || expected == "\"*\"" || found.value.etag.value == expected)
  }

  predicate Admitted(s: System, dest: Path, cond: Condition) {
    match cond
    case Plain => true
    case IfNoneMatch => FileAt(s, dest).None?
    case IfMatch(expected) => Matches(expected, FileAt(s, dest))
  }

  /** A listed part is there under its listed etag, which is hexadecimal. */
  predicate PartReady(s: System, upload: Multipart.UploadId, part: Multipart.CompletedPart) {
    var found := FileAt(s, Part(upload, part.number));
    found.Some? && found.value.etag == Some(part.etag) && HexDecode(TrimQuotes(part.etag)).Some?
  }

  predicate PartsReady(s: System, upload: Multipart.UploadId, list: seq<Multipart.CompletedPart>) {
    forall i :: 0 <= i < |list| ==> PartReady(s, upload, list[i])
  }

  function PartBodies(s: System, upload: Multipart.UploadId, list: seq<Multipart.CompletedPart>): seq<bytes>
    requires PartsReady(s, upload, list)
  {
    seq(|list|, i requires 0 <= i < |list| =>
      assert PartReady(s, upload, list[i]);
      FileAt(s, Part(upload, list[i].number)).value.data)
  }

  function ListedDigests(s: System, upload: Multipart.UploadId, list: seq<Multipart.CompletedPart>): seq<bytes>
    requires PartsReady(s, upload, list)
  {
    seq(|list|, i requires 0 <= i < |list| =>
      assert PartReady(s, upload, list[i]);
      HexDecode(TrimQuotes(list[i].etag)).value)
  }

  /** The bytes and etag that the call is to leave at its destination, `None` when it is to be refused. */
  function Meant(md5: Digest, s: System, call: BeginAct): Option<Version>
    requires !call.Open?
  {
    match call
    case Put(key, body, cond, _) => if Admitted(s, Object(key), cond) then Some(Version(body, EtagOf(md5, body))) else None
    case PutPart(_, _, body, _) => Some(Version(body, EtagOf(md5, body)))
    case Copy(src, _, _) =>
      var found := FileAt(s, Object(src));
      if found.Some? then Some(Version(found.value.data, found.value.etag.GetOr(""))) else None
    case Assemble(_, upload, list, _) =>
      if PartsReady(s, upload, list) then
        Some(Version(Flatten(PartBodies(s, upload, list)),
                     CompositeEtag(md5, Flatten(ListedDigests(s, upload, list)), |list|)))
      else None
  }

  /** The If-Match comparison accepts exactly those objects, and tells why it refuses. */
  lemma CheckPassesExactly(s: System, path: Path, expected: string)
    ensures CheckPasses(s, path, expected) <==> Matches(expected, FileAt(s, path))
    ensures var found := FileAt(s, path);
            CheckResult(s, path, expected) ==
            if found.None? then Err(XattrError)
            else if found.value.etag.None? then Err(NotFound)
            else if Matches(expected, found) then Ok(found.value.etag.value)
            else Err(EtagMismatch)
  {
  }

  // ---- The steps of the call ----

  /** A step of process `p` that is no fault. */
  predicate OwnStep(a: Step, p: Pid) {
    match a
    case Prepares(q, act) => q == p && !act.SkipSync?
    case Commits(q, act) => q == p && !act.Abort? && act != Rename(false)
    case _ => false
  }

  predicate Alone(steps: seq<Step>, p: Pid) {
    forall i :: 0 <= i < |steps| ==> OwnStep(steps[i], p)
  }

  predicate Returned(stage: Stage) {
    stage.Succeeded? || stage.Failed?
  }

  predicate SameName(s: System, t: System, path: Path) {
    (path in t.dir <==> path in s.dir) && (path in t.dir ==> t.dir[path] == s.dir[path])
  }

  /** The call has its lock file open, or has come further. */
  predicate PastLock(w: Process)
    requires w.Writer?
  {
    w.cond.IfMatch? && (HasLock(w.stage) || Published(w.stage))
  }

  /** The names that the call may have changed so far: its temp file, its lock file, at last its destination. */
  predicate Mine(w: Process, p: Pid, path: Path)
    requires w.Writer?
  {
    || path == Temp(p) || (path == w.dest && Published(w.stage))
    || (PastLock(w) && w.dest.Object? && path == LockPath(w.dest.key))
  }

  /** Nothing that was there before has changed, but for the call's own names. */
  ghost predicate Framed(s: System, t: System, p: Pid)
    requires IsWriter(t, p)
  {
    && (forall i :: i in s.heap ==> i in t.heap && t.heap[i] == s.heap[i])
    && (forall path :: !Mine(t.procs[p], p, path) ==> SameName(s, t, path))
  }

  ghost predicate Gathered(s: System, w: Process)
    requires w.Writer? && w.stage.Assembling? && w.origin.Assembly?
  {
    var pieces, digests, upload, list := w.stage.pieces, w.stage.digests, w.origin.upload, w.origin.list;
    && |pieces| <= |digests| <= |list| && w.body == Flatten(pieces)
    && (forall i :: 0 <= i < |digests| ==>
          PartReady(s, upload, list[i]) && HexDecode(TrimQuotes(list[i].etag)) == Some(digests[i]))
    && (forall i :: 0 <= i < |pieces| ==> Some(pieces[i]) == DataAt(s, Part(upload, list[i].number)))
  }

  function DataAt(s: System, path: Path): Option<bytes> {
    if FileAt(s, path).Some? then Some(FileAt(s, path).value.data) else None
  }

  /** The process record is that of the call. */
  predicate IsCall(s: System, w: Process, call: BeginAct)
    requires w.Writer? && !call.Open?
  {
    && w.dest == DestOf(call) && w.cond == CondOf(call) && w.ino == call.ino && w.ino !in s.heap
    && match call
       case Copy(src, _, _) => Object(src) in s.dir && w.origin == CopyOf(src, s.dir[Object(src)])
       case Assemble(_, upload, list, _) => w.origin == Assembly(upload, list)
       case _ => w.origin == Upload
  }

  /** What the process has gathered or computed so far is what the call means. */
  ghost predicate BodyOnCourse(md5: Digest, s: System, w: Process, call: BeginAct)
    requires w.Writer? && !call.Open?
  {
    match call
    case Put(_, body, _, _) => w.body == body && !w.stage.Assembling?
    case PutPart(_, _, body, _) => w.body == body && !w.stage.Assembling?
    case Copy(src, _, _) =>
      && !w.stage.Assembling? && FileAt(s, Object(src)).Some? && w.body == FileAt(s, Object(src)).value.data
      && (Tagging(w.stage) ==> w.tag == FileAt(s, Object(src)).value.etag.GetOr(""))
    case Assemble(_, upload, list, _) =>
      if w.stage.Assembling? then w.origin.Assembly? && Gathered(s, w)
      else !w.stage.Streaming? && (TagKnown(w.stage) ==> Meant(md5, s, call) == Some(Version(w.body, w.tag)))
  }

  predicate Tagging(stage: Stage) {
    SyncReturned(stage) && !stage.Synced?
  }

  ghost predicate OnCourse(md5: Digest, s: System, t: System, p: Pid, call: BeginAct)
    requires !call.Open?
  {
    && IsWriter(t, p) && IsCall(s, t.procs[p], call) && Framed(s, t, p)
    && BodyOnCourse(md5, s, t.procs[p], call) && StageOnCourse(md5, s, t, p, call)
  }

  ghost predicate StageOnCourse(md5: Digest, s: System, t: System, p: Pid, call: BeginAct)
    requires !call.Open? && IsWriter(t, p)
  {
    var w := t.procs[p];
    && (if Unpublished(w.stage) then Temp(p) in t.dir else Published(w.stage) ==> Temp(p) !in t.dir)
    && (SyncReturned(w.stage) ==> w.ino in t.heap && t.heap[w.ino].synced)
    && (Tagging(w.stage) && w.cond.IfMatch? ==> Admitted(s, w.dest, w.cond))
    && (Published(w.stage) ==> Arrived(md5, s, t, p, call))
    && (w.stage.Failed? ==> w.stage == Failed(false) && Meant(md5, s, call).None?)
    && (w.stage.Unlinked? || (w.stage.Succeeded? && w.cond.IfMatch?) ==>
          w.dest.Object? && LockPath(w.dest.key) !in t.dir)
  }

  /** The destination leads to the call's own inode with the bytes and etag that the call means. */
  ghost predicate Arrived(md5: Digest, s: System, t: System, p: Pid, call: BeginAct)
    requires !call.Open? && IsWriter(t, p)
  {
    && Meant(md5, s, call).Some? && DestOf(call) in t.dir && t.dir[DestOf(call)] == t.procs[p].ino
    && FileAt(t, DestOf(call)) == Some(Inode(p, Meant(md5, s, call).value.data, true, Some(Meant(md5, s, call).value.etag)))
  }

  // ---- Every step keeps to the course ----

  lemma FileStays(s: System, t: System, p: Pid, path: Path)
    requires NoDangling(s) && IsWriter(t, p) && Framed(s, t, p) && !Mine(t.procs[p], p, path)
    ensures FileAt(t, path) == FileAt(s, path)
    ensures EtagAt(t, path) == if FileAt(s, path).Some? then Some(FileAt(s, path).value.etag) else None
  {
    assert SameName(s, t, path);
  }

  /** A step that touches only the call's own inode and names keeps the rest as it was at the start. */
  lemma FramedOn(s: System, t: System, u: System, p: Pid)
    requires IsWriter(t, p) && Framed(s, t, p) && IsWriter(u, p)
    requires forall i :: i in s.heap ==> i in u.heap && u.heap[i] == t.heap[i]
    requires forall path :: !Mine(u.procs[p], p, path) ==>
               !Mine(t.procs[p], p, path) && (path in u.dir <==> path in t.dir)
               && (path in t.dir ==> u.dir[path] == t.dir[path])
    ensures Framed(s, u, p)
  {
    forall path | !Mine(u.procs[p], p, path) ensures SameName(s, u, path) {
      assert SameName(s, t, path);
    }
  }

  lemma BeginOnCourse(md5: Digest, s: System, p: Pid, call: BeginAct)
    requires WellFormed(md5, s) && CanBegin(s, p, call) && !call.Open?
    ensures OnCourse(md5, s, DoBegin(s, p, call), p, call)
  {
  }

  lemma ChunkOnCourse(md5: Digest, s: System, t: System, p: Pid, call: BeginAct, n: nat)
    requires NoDangling(s) && !call.Open? && OnCourse(md5, s, t, p, call) && WriterOk(md5, t, p)
    requires CanPrepare(t, p, Chunk(n))
    ensures OnCourse(md5, s, DoPrepare(md5, t, p, Chunk(n)), p, call)
  {
    FramedOn(s, t, DoPrepare(md5, t, p, Chunk(n)), p);
  }

  lemma CheckPartOnCourse(md5: Digest, s: System, t: System, p: Pid, call: BeginAct)
    requires NoDangling(s) && !call.Open? && OnCourse(md5, s, t, p, call) && WriterOk(md5, t, p)
    requires CanPrepare(t, p, CheckPart)
    ensures OnCourse(md5, s, DoCheckPart(t, p), p, call)
  {
    var w := t.procs[p];
    FileStays(s, t, p, Part(w.origin.upload, w.origin.list[|w.stage.pieces|].number));
    FramedOn(s, t, DoCheckPart(t, p), p);
  }

  lemma AppendPartOnCourse(md5: Digest, s: System, t: System, p: Pid, call: BeginAct)
    requires NoDangling(s) && !call.Open? && OnCourse(md5, s, t, p, call) && WriterOk(md5, t, p)
    requires CanPrepare(t, p, AppendPart)
    ensures OnCourse(md5, s, DoAppendPart(t, p), p, call)
  {
    var w := t.procs[p];
    var path := Part(w.origin.upload, w.origin.list[|w.stage.pieces|].number);
    FileStays(s, t, p, path);
    assert PartReady(s, w.origin.upload, w.origin.list[|w.stage.pieces|]);
    FlattenSnoc(w.stage.pieces, t.heap[t.dir[path]].data);
    FramedOn(s, t, DoAppendPart(t, p), p);
  }

  lemma EndOnCourse(md5: Digest, s: System, t: System, p: Pid, call: BeginAct)
    requires NoDangling(s) && !call.Open? && OnCourse(md5, s, t, p, call) && WriterOk(md5, t, p)
    requires CanPrepare(t, p, EndStream)
    ensures OnCourse(md5, s, DoEndStream(md5, t, p), p, call)
  {
    var w := t.procs[p];
    if call.Assemble? {
      assert PartsReady(s, call.upload, call.list);
      assert w.stage.pieces == PartBodies(s, call.upload, call.list);
      assert w.stage.digests == ListedDigests(s, call.upload, call.list);
    }
    FramedOn(s, t, DoEndStream(md5, t, p), p);
  }

  lemma CopyCheckOnCourse(md5: Digest, s: System, t: System, p: Pid, call: BeginAct)
    requires NoDangling(s) && !call.Open? && OnCourse(md5, s, t, p, call) && WriterOk(md5, t, p)
    requires CanPrepare(t, p, Check) && call.Copy?
    ensures OnCourse(md5, s, DoCheck(t, p), p, call)
  {
    FileStays(s, t, p, Object(call.src));
    FramedOn(s, t, DoCheck(t, p), p);
  }

  lemma UploadCheckOnCourse(md5: Digest, s: System, t: System, p: Pid, call: BeginAct)
    requires NoDangling(s) && !call.Open? && OnCourse(md5, s, t, p, call) && WriterOk(md5, t, p)
    requires CanPrepare(t, p, Check) && !call.Copy?
    ensures OnCourse(md5, s, DoCheck(t, p), p, call)
  {
    var w := t.procs[p];
    FileStays(s, t, p, w.dest);
    if w.cond.IfMatch? {
      CheckPassesExactly(t, w.dest, w.cond.expected);
    }
    FramedOn(s, t, DoCheck(t, p), p);
  }

  lemma CheckOnCourse(md5: Digest, s: System, t: System, p: Pid, call: BeginAct)
    requires NoDangling(s) && !call.Open? && OnCourse(md5, s, t, p, call) && WriterOk(md5, t, p)
    requires CanPrepare(t, p, Check)
    ensures OnCourse(md5, s, DoCheck(t, p), p, call)
  {
    if call.Copy? {
      CopyCheckOnCourse(md5, s, t, p, call);
    } else {
      UploadCheckOnCourse(md5, s, t, p, call);
    }
  }

  lemma SyncOnCourse(md5: Digest, s: System, t: System, p: Pid, call: BeginAct)
    requires !call.Open? && OnCourse(md5, s, t, p, call) && WriterOk(md5, t, p)
    requires CanPrepare(t, p, Sync)
    ensures OnCourse(md5, s, DoPrepare(md5, t, p, Sync), p, call)
  {
    FramedOn(s, t, DoPrepare(md5, t, p, Sync), p);
  }

  lemma TagOnCourse(md5: Digest, s: System, t: System, p: Pid, call: BeginAct)
    requires !call.Open? && OnCourse(md5, s, t, p, call) && WriterOk(md5, t, p)
    requires CanPrepare(t, p, Tag)
    ensures OnCourse(md5, s, DoPrepare(md5, t, p, Tag), p, call)
  {
    FramedOn(s, t, DoPrepare(md5, t, p, Tag), p);
  }

  /** What an upload, a part or an assembly means is known once its attributes are set; so for a copy. */
  lemma MeantIsTagged(md5: Digest, s: System, t: System, p: Pid, call: BeginAct)
    requires !call.Open? && OnCourse(md5, s, t, p, call) && WriterOk(md5, t, p)
    requires AttributesSet(t.procs[p].stage) && Admitted(s, DestOf(call), CondOf(call))
    ensures var w := t.procs[p];
            && Meant(md5, s, call) == Some(Version(w.body, w.tag))
            && w.ino in t.heap && t.heap[w.ino] == Inode(p, w.body, true, Some(w.tag))
  {
  }

  lemma PublishOnCourse(md5: Digest, s: System, t: System, p: Pid, call: BeginAct, stage: Stage)
    requires NoDangling(s) && !call.Open? && OnCourse(md5, s, t, p, call) && WriterOk(md5, t, p)
    requires AttributesSet(t.procs[p].stage) && Admitted(s, DestOf(call), CondOf(call))
    requires if CondOf(call).IfMatch? then stage.Renamed? && HasLock(t.procs[p].stage) else stage.Succeeded?
    ensures OnCourse(md5, s, Publish(t, p, stage), p, call)
  {
    MeantIsTagged(md5, s, t, p, call);
    FramedOn(s, t, Publish(t, p, stage), p);
  }

  lemma RenameOnCourse(md5: Digest, s: System, t: System, p: Pid, call: BeginAct, act: CommitAct)
    requires NoDangling(s) && !call.Open? && OnCourse(md5, s, t, p, call) && WriterOk(md5, t, p)
    requires CanCommit(t, p, act) && (act == Rename(true) || act.RenameNoReplace? || act.RenameLocked?)
    ensures OnCourse(md5, s, DoCommit(t, p, act), p, call)
  {
    if act.RenameNoReplace? {
      FileStays(s, t, p, t.procs[p].dest);
    }
    var u := DoCommit(t, p, act);
    if u.procs[p].stage.Failed? {
      FramedOn(s, t, u, p);
    } else {
      PublishOnCourse(md5, s, t, p, call, u.procs[p].stage);
    }
  }

  lemma LockOnCourse(md5: Digest, s: System, t: System, p: Pid, call: BeginAct, act: CommitAct)
    requires NoDangling(s) && !call.Open? && OnCourse(md5, s, t, p, call) && WriterOk(md5, t, p)
    requires CanCommit(t, p, act) && (act.OpenLock? || act.Flock? || act.Recheck?)
    ensures OnCourse(md5, s, DoCommit(t, p, act), p, call)
  {
    if t.procs[p].dest.Object? {
      LockPathIsAnother(t.procs[p].dest.key);
    }
    FileStays(s, t, p, t.procs[p].dest);
    if act.Recheck? {
      CheckPassesExactly(t, t.procs[p].dest, t.procs[p].cond.expected);
    }
    FramedOn(s, t, DoCommit(t, p, act), p);
  }

  lemma UnlockOnCourse(md5: Digest, s: System, t: System, p: Pid, call: BeginAct, act: CommitAct)
    requires NoDangling(s) && !call.Open? && OnCourse(md5, s, t, p, call) && WriterOk(md5, t, p)
    requires CanCommit(t, p, act) && (act.UnlinkLock? || act.Release?)
    ensures OnCourse(md5, s, DoCommit(t, p, act), p, call)
  {
    if t.procs[p].dest.Object? {
      LockPathIsAnother(t.procs[p].dest.key);
    }
    FramedOn(s, t, DoCommit(t, p, act), p);
  }

  lemma PrepareOnCourse(md5: Digest, s: System, t: System, p: Pid, call: BeginAct, act: PrepareAct)
    requires NoDangling(s) && !call.Open? && OnCourse(md5, s, t, p, call) && WriterOk(md5, t, p)
    requires CanPrepare(t, p, act) && !act.SkipSync?
    ensures OnCourse(md5, s, DoPrepare(md5, t, p, act), p, call)
  {
    match act
    case Chunk(n) => ChunkOnCourse(md5, s, t, p, call, n);
    case CheckPart => CheckPartOnCourse(md5, s, t, p, call);
    case AppendPart => AppendPartOnCourse(md5, s, t, p, call);
    case EndStream => EndOnCourse(md5, s, t, p, call);
    case Sync => SyncOnCourse(md5, s, t, p, call);
    case Check => CheckOnCourse(md5, s, t, p, call);
    case Tag => TagOnCourse(md5, s, t, p, call);
  }

  lemma CommitOnCourse(md5: Digest, s: System, t: System, p: Pid, call: BeginAct, act: CommitAct)
    requires NoDangling(s) && !call.Open? && OnCourse(md5, s, t, p, call) && WriterOk(md5, t, p)
    requires CanCommit(t, p, act) && !act.Abort? && act != Rename(false)
    ensures OnCourse(md5, s, DoCommit(t, p, act), p, call)
  {
    match act
    case OpenLock(_) => LockOnCourse(md5, s, t, p, call, act);
    case Flock => LockOnCourse(md5, s, t, p, call, act);
    case Recheck => LockOnCourse(md5, s, t, p, call, act);
    case UnlinkLock => UnlockOnCourse(md5, s, t, p, call, act);
    case Release => UnlockOnCourse(md5, s, t, p, call, act);
    case _ => RenameOnCourse(md5, s, t, p, call, act);
  }

  lemma StepOnCourse(md5: Digest, s: System, t: System, p: Pid, call: BeginAct, a: Step)
    requires NoDangling(s) && WellFormed(md5, t) && !call.Open? && OnCourse(md5, s, t, p, call)
    requires Can(t, a) && OwnStep(a, p)
    ensures OnCourse(md5, s, Do(md5, t, a), p, call) && WellFormed(md5, Do(md5, t, a))
  {
    assert WriterOk(md5, t, p);
    StepKeepsWellFormed(md5, t, a);
    match a
    case Prepares(_, act) => PrepareOnCourse(md5, s, t, p, call, act);
    case Commits(_, act) => CommitOnCourse(md5, s, t, p, call, act);
  }

  lemma {:induction false} RunOnCourse(md5: Digest, s: System, t: System, p: Pid, call: BeginAct, steps: seq<Step>)
    requires NoDangling(s) && WellFormed(md5, t) && !call.Open? && OnCourse(md5, s, t, p, call)
    requires Legal(md5, t, steps) && Alone(steps, p)
    ensures OnCourse(md5, s, Run(md5, t, steps), p, call)
    decreases |steps|
  {
    if steps == [] {
    } else {
      StepOnCourse(md5, s, t, p, call, steps[0]);
      assert Alone(steps[1..], p);
      RunOnCourse(md5, s, Do(md5, t, steps[0]), p, call, steps[1..]);
    }
  }

  // ---- What the call has done when it returns ----

  /** Every name but these leads to the same inode, and every old inode is as it was. */
  ghost predicate OnlyNames(s: System, t: System, names: set<Path>) {
    && (forall i :: i in s.heap ==> i in t.heap && t.heap[i] == s.heap[i])
    && (forall path :: path !in names ==> SameName(s, t, path))
  }

  /** The call was refused and left at most its temp file, or it did what it means and left no temp file. */
  ghost predicate Done(md5: Digest, s: System, t: System, p: Pid, call: BeginAct)
    requires !call.Open? && IsWriter(t, p)
  {
    var stage := t.procs[p].stage;
    match Meant(md5, s, call)
    case None => stage == Failed(false) && OnlyNames(s, t, {Temp(p)})
    case Some(v) =>
      && stage.Succeeded? && Temp(p) !in t.dir
      && FileAt(t, DestOf(call)) == Some(Inode(p, v.data, true, Some(v.etag)))
      && if CondOf(call).IfMatch? && DestOf(call).Object? then
           OnlyNames(s, t, {Temp(p), DestOf(call), LockPath(DestOf(call).key)}) && LockPath(DestOf(call).key) !in t.dir
         else OnlyNames(s, t, {Temp(p), DestOf(call)})
  }

  /**
   * Every run of a PUT, a part upload, a copy or an assembly that is alone and meets no fault, once it
   * has returned: what it did is what a sequential reading of the call says.
   */
  lemma LoneCallDoesWhatItMeans(md5: Digest, s: System, p: Pid, call: BeginAct, steps: seq<Step>)
    requires WellFormed(md5, s) && CanBegin(s, p, call) && !call.Open?
    requires Legal(md5, DoBegin(s, p, call), steps) && Alone(steps, p)
    ensures var t := Run(md5, DoBegin(s, p, call), steps);
            IsWriter(t, p) && (Returned(t.procs[p].stage) ==> Done(md5, s, t, p, call))
  {
    BeginOnCourse(md5, s, p, call);
    BeginKeepsWellFormed(md5, s, p, call);
    RunOnCourse(md5, s, DoBegin(s, p, call), p, call, steps);
    CourseEnds(md5, s, Run(md5, DoBegin(s, p, call), steps), p, call);
  }

  lemma CourseEnds(md5: Digest, s: System, t: System, p: Pid, call: BeginAct)
    requires !call.Open? && OnCourse(md5, s, t, p, call)
    ensures Returned(t.procs[p].stage) ==> Done(md5, s, t, p, call)
  {
  }

  // ---- The call does return ----

  /** The lock file that the call will find or has found is free. */
  ghost predicate Unhindered(t: System, p: Pid)
    requires IsWriter(t, p)
  {
    var w := t.procs[p];
    && (w.stage.LockOpen? ==> w.stage.lock !in t.flocks)
    && (Unpublished(w.stage) && !HasLock(w.stage) && w.dest.Object? && LockPath(w.dest.key) in t.dir ==>
          t.dir[LockPath(w.dest.key)] !in t.flocks)
  }

  function NextStep(w: Process, p: Pid, unused: Ino): Step
    requires w.Writer? && !Returned(w.stage)
  {
    match w.stage
    case Streaming(sent) =>
      Prepares(p, if sent < |w.body| then Chunk(|w.body| - sent) else EndStream)
    case Assembling(pieces, digests) =>
      Prepares(p, if |pieces| < |digests| then AppendPart
                  else if w.origin.Assembly? && |digests| < |w.origin.list| then CheckPart
                  else EndStream)
    case Streamed => Prepares(p, Sync)
    case Synced => Prepares(p, Check)
    case Ready => Prepares(p, Tag)
    case Tagged =>
      Commits(p, if w.cond.Plain? then Rename(true) else if w.cond.IfNoneMatch? then RenameNoReplace else OpenLock(unused))
    case LockOpen(_) => Commits(p, Flock)
    case LockHeld(_) => Commits(p, Recheck)
    case Verified(_) => Commits(p, RenameLocked)
    case Renamed(_) => Commits(p, UnlinkLock)
    case Unlinked(_) => Commits(p, Release)
  }

  /** How much of the call is left. */
  function Rank(w: Process): int
    requires w.Writer?
  {
    match w.stage
    case Streaming(sent) => 11 + |w.body| - sent
    case Assembling(pieces, digests) =>
      11 + 2 * (if w.origin.Assembly? then |w.origin.list| else 0) - |pieces| - |digests|
    case Streamed => 10
    case Synced => 9
    case Ready => 8
    case Tagged => 7
    case LockOpen(_) => 6
    case LockHeld(_) => 5
    case Verified(_) => 4
    case Renamed(_) => 3
    case Unlinked(_) => 2
    case _ => 1
  }

  lemma NotStuck(md5: Digest, t: System, p: Pid, unused: Ino)
    requires NoDangling(t) && IsWriter(t, p) && WriterOk(md5, t, p) && Unhindered(t, p)
    requires !Returned(t.procs[p].stage) && unused !in t.heap && unused !in t.flocks
    ensures Can(t, NextStep(t.procs[p], p, unused)) && OwnStep(NextStep(t.procs[p], p, unused), p)
  {
  }

  lemma PrepareUnhindered(md5: Digest, t: System, p: Pid, act: PrepareAct)
    requires CanPrepare(t, p, act) && Unhindered(t, p) && Unpublished(t.procs[p].stage) && !HasLock(t.procs[p].stage)
    ensures IsWriter(DoPrepare(md5, t, p, act), p) && Unhindered(DoPrepare(md5, t, p, act), p)
  {
    PrepareKeepsDir(md5, t, p, act);
    PrepareShape(md5, t, p, act);
  }

  lemma BodyGetsOn(md5: Digest, t: System, p: Pid, unused: Ino)
    requires IsWriter(t, p) && WriterOk(md5, t, p) && (t.procs[p].stage.Streaming? || t.procs[p].stage.Assembling?)
    requires Can(t, NextStep(t.procs[p], p, unused))
    ensures var u := DoPrepare(md5, t, p, NextStep(t.procs[p], p, unused).prepare);
            IsWriter(u, p) && 0 < Rank(u.procs[p]) < Rank(t.procs[p])
  {
  }

  lemma PrepareGetsOn(md5: Digest, t: System, p: Pid, unused: Ino)
    requires IsWriter(t, p) && WriterOk(md5, t, p)
    requires Unpublished(t.procs[p].stage) && NextStep(t.procs[p], p, unused).Prepares?
    requires Can(t, NextStep(t.procs[p], p, unused))
    ensures var u := DoPrepare(md5, t, p, NextStep(t.procs[p], p, unused).prepare);
            IsWriter(u, p) && 0 < Rank(u.procs[p]) < Rank(t.procs[p])
  {
    if t.procs[p].stage.Streaming? || t.procs[p].stage.Assembling? {
      BodyGetsOn(md5, t, p, unused);
    }
  }

  lemma CommitUnhindered(md5: Digest, t: System, p: Pid, act: CommitAct)
    requires IsWriter(t, p) && WriterOk(md5, t, p) && Unhindered(t, p) && CanCommit(t, p, act)
    requires act.OpenLock? ==> act.ino !in t.flocks
    ensures IsWriter(DoCommit(t, p, act), p) && Unhindered(DoCommit(t, p, act), p)
  {
  }

  lemma CommitGetsOn(md5: Digest, t: System, p: Pid, unused: Ino)
    requires IsWriter(t, p) && WriterOk(md5, t, p) && !Returned(t.procs[p].stage)
    requires NextStep(t.procs[p], p, unused).Commits? && Can(t, NextStep(t.procs[p], p, unused))
    ensures var u := DoCommit(t, p, NextStep(t.procs[p], p, unused).commit);
            IsWriter(u, p) && 0 < Rank(u.procs[p]) < Rank(t.procs[p])
  {
  }

  lemma GetsOn(md5: Digest, t: System, p: Pid, unused: Ino)
    requires IsWriter(t, p) && WriterOk(md5, t, p) && Unhindered(t, p)
    requires !Returned(t.procs[p].stage) && unused !in t.flocks
    requires Can(t, NextStep(t.procs[p], p, unused))
    ensures var u := Do(md5, t, NextStep(t.procs[p], p, unused));
            IsWriter(u, p) && Unhindered(u, p) && 0 < Rank(u.procs[p]) < Rank(t.procs[p])
  {
    if NextStep(t.procs[p], p, unused).Prepares? {
      PrepareUnhindered(md5, t, p, NextStep(t.procs[p], p, unused).prepare);
      PrepareGetsOn(md5, t, p, unused);
    } else {
      CommitUnhindered(md5, t, p, NextStep(t.procs[p], p, unused).commit);
      CommitGetsOn(md5, t, p, unused);
    }
  }

  /** From every state of the call on, if its lock file is free, it can be run to its end. */
  lemma {:induction false} LoneCallReturns(md5: Digest, s: System, t: System, p: Pid, call: BeginAct)
    returns (steps: seq<Step>)
    requires NoDangling(s) && WellFormed(md5, t) && !call.Open? && OnCourse(md5, s, t, p, call) && Unhindered(t, p)
    ensures Legal(md5, t, steps) && Alone(steps, p)
    ensures var end := Run(md5, t, steps); IsWriter(end, p) && Returned(end.procs[p].stage)
    decreases Rank(t.procs[p])
  {
    steps := [];
    if !Returned(t.procs[p].stage) {
      var unused := Unused(t.heap.Keys + t.flocks.Keys);
      assert unused !in t.heap.Keys + t.flocks.Keys;
      var a := NextStep(t.procs[p], p, unused);
      NotStuck(md5, t, p, unused);
      GetsOn(md5, t, p, unused);
      StepOnCourse(md5, s, t, p, call, a);
      var rest := LoneCallReturns(md5, s, Do(md5, t, a), p, call);
      steps := [a] + rest;
      assert steps[1..] == rest;
    }
  }

  /** When a call gets as far as its temp file. */
  predicate MayCall(s: System, p: Pid, call: BeginAct)
    requires !call.Open?
  {
    && p !in s.used && call.ino !in s.heap
    && match call
       case Put(_, _, _, _) => true
       case PutPart(dest, number, _, _) => 1 <= number <= 10_000 && PartFile(dest, number)
       case Copy(src, _, _) => FileAt(s, Object(src)).Some?
       case Assemble(_, _, list, _) =>
         list != [] && list[0].number > 0 && forall i :: 0 < i < |list| ==> list[i - 1].number < list[i].number
  }

  /** The lock file of the call's key, if there is one, is not held. */
  predicate LockAtRest(s: System, dest: Path) {
    dest.Object? && LockPath(dest.key) in s.dir ==> s.dir[LockPath(dest.key)] !in s.flocks
  }

  /** Every call that may begin can be run to its end, and then it has done what it means. */
  lemma LoneCallEnds(md5: Digest, s: System, p: Pid, call: BeginAct) returns (steps: seq<Step>, t: System)
    requires WellFormed(md5, s) && !call.Open? && MayCall(s, p, call) && LockAtRest(s, DestOf(call))
    ensures Legal(md5, DoBegin(s, p, call), steps) && Alone(steps, p) && t == Run(md5, DoBegin(s, p, call), steps)
    ensures IsWriter(t, p) && Done(md5, s, t, p, call)
  {
    var u := DoBegin(s, p, call);
    BeginOnCourse(md5, s, p, call);
    BeginKeepsWellFormed(md5, s, p, call);
    steps := LoneCallReturns(md5, s, u, p, call);
    t := Run(md5, u, steps);
    LoneCallDoesWhatItMeans(md5, s, p, call, steps);
  }

  /** A PUT that matches any existing object replaces one that has an etag, whatever the etag is. */
  lemma WildcardReplaces(md5: Digest, s: System, p: Pid, key: Key, body: bytes, ino: Ino)
    returns (steps: seq<Step>, t: System)
    requires WellFormed(md5, s) && p !in s.used && ino !in s.heap && LockAtRest(s, Object(key))
    requires FileAt(s, Object(key)).Some? && FileAt(s, Object(key)).value.etag.Some?
    ensures var call := Put(key, body, IfMatch("*"), ino);
            Legal(md5, DoBegin(s, p, call), steps) && Alone(steps, p) && t == Run(md5, DoBegin(s, p, call), steps)
    ensures IsWriter(t, p) && t.procs[p].stage.Succeeded?
    ensures Object(key) in t.dir && t.dir[Object(key)] == ino
    ensures FileAt(t, Object(key)) == Some(Inode(p, body, true, Some(EtagOf(md5, body))))
  {
    var call := Put(key, body, IfMatch("*"), ino);
    steps, t := LoneCallEnds(md5, s, p, call);
    BeginOnCourse(md5, s, p, call);
    BeginKeepsWellFormed(md5, s, p, call);
    RunOnCourse(md5, s, DoBegin(s, p, call), p, call, steps);
  }

  /**
   * What the theorems on runs ask for holds of such a call: it is tame under an ordinary key, and If-Match
   * writers that expect one etag and bring another form a cohort.
   */
  lemma LoneCallIsOrdinary(md5: Digest, s: System, p: Pid, key: Key, body: bytes, cond: Condition, ino: Ino,
      steps: seq<Step>, e0: string)
    requires WellFormed(md5, s) && p !in s.used && ino !in s.heap && !IsLockKey(key) && Alone(steps, p)
    requires Legal(md5, DoBegin(s, p, Put(key, body, cond, ino)), steps)
    ensures var a := Begins(p, Put(key, body, cond, ino));
            && Tame(s, a) && TameRun(md5, Do(md5, s, a), steps)
            && (cond == IfMatch(e0) && EtagOf(md5, body) != e0 ==> CohortRun(md5, [a] + steps, key, e0))
            && forall i :: 0 <= i < |steps| ==> FaultFree(steps[i])
  {
    var call := Put(key, body, cond, ino);
    BeginOnCourse(md5, s, p, call);
    BeginKeepsWellFormed(md5, s, p, call);
    AloneIsTame(md5, s, DoBegin(s, p, call), p, call, steps);
  }

  lemma {:induction false} AloneIsTame(md5: Digest, s: System, t: System, p: Pid, call: BeginAct, steps: seq<Step>)
    requires NoDangling(s) && WellFormed(md5, t) && call.Put? && OnCourse(md5, s, t, p, call)
    requires Legal(md5, t, steps) && Alone(steps, p)
    ensures TameRun(md5, t, steps)
    decreases |steps|
  {
    if steps != [] {
      StepOnCourse(md5, s, t, p, call, steps[0]);
      assert Alone(steps[1..], p);
      AloneIsTame(md5, s, Do(md5, t, steps[0]), p, call, steps[1..]);
    }
  }

  /** A writer that finds no other at its key is polite if it brings another etag than it expects. */
  lemma LoneWriterIsPolite(md5: Digest, s: System, p: Pid, key: Key, body: bytes, e: string, ino: Ino, steps: seq<Step>)
    requires p !in s.used && ino !in s.heap && Alone(steps, p) && EtagOf(md5, body) != e
    requires forall q :: IsWriter(s, q) ==> s.procs[q].dest != Object(key)
    requires Legal(md5, DoBegin(s, p, Put(key, body, IfMatch(e), ino)), steps)
    ensures var a := Begins(p, Put(key, body, IfMatch(e), ino));
            PoliteStep(md5, s, a, key) && PoliteRun(md5, Do(md5, s, a), steps, key)
  {
    AloneIsPolite(md5, DoBegin(s, p, Put(key, body, IfMatch(e), ino)), p, key, steps);
  }

  lemma {:induction false} AloneIsPolite(md5: Digest, t: System, p: Pid, key: Key, steps: seq<Step>)
    requires Legal(md5, t, steps) && Alone(steps, p)
    ensures PoliteRun(md5, t, steps, key)
    decreases |steps|
  {
    if steps != [] {
      assert OwnStep(steps[0], p);
      assert Alone(steps[1..], p);
      AloneIsPolite(md5, Do(md5, t, steps[0]), p, key, steps[1..]);
    }
  }

  // ---- Reading, deleting and moving ----

  /**
   * Whoever opens a key reads the object that was there at that moment, however long it takes and
   * whatever others do to the key meanwhile.
   */
  lemma OpenedObjectIsRead(md5: Digest, s: System, p: Pid, key: Key, steps: seq<Step>)
    requires Safe(md5, s) && p !in s.used && FileAt(s, Object(key)).Some? && !IsLockKey(key)
    requires Legal(md5, DoBegin(s, p, Open(key)), steps) && TameRun(md5, DoBegin(s, p, Open(key)), steps)
    requires p in Run(md5, DoBegin(s, p, Open(key)), steps).procs
    ensures var t := Run(md5, DoBegin(s, p, Open(key)), steps);
            var r := t.procs[p];
            var found := FileAt(s, Object(key)).value;
            && r.Reader? && r.ino in t.heap && t.heap[r.ino] == found
            && (r.size.Some? ==> r.size.value == |found.data|)
            && (r.etag.Some? ==> r.etag.value == found.etag)
  {
    var a := Begins(p, Open(key));
    StepKeepsSafe(md5, s, a);
    HandleKeepsItsObject(md5, Do(md5, s, a), steps, p);
  }

  /** The reader can ask for size and etag at any time, and learns both. */
  lemma ReaderLearns(md5: Digest, s: System, p: Pid)
    requires WellFormed(md5, s) && p in s.procs && s.procs[p].Reader?
    ensures Legal(md5, s, [Reads(p, Stat), Reads(p, ReadEtag)])
    ensures var t := Run(md5, s, [Reads(p, Stat), Reads(p, ReadEtag)]);
            && p in t.procs && t.procs[p].Reader? && t.heap == s.heap && t.dir == s.dir
            && t.procs[p].size == Some(|s.heap[s.procs[p].ino].data|)
            && t.procs[p].etag == Some(s.heap[s.procs[p].ino].etag)
  {
    var steps := [Reads(p, Stat), Reads(p, ReadEtag)];
    var u := Do(md5, s, steps[0]);
    assert steps[1..] == [Reads(p, ReadEtag)];
    RunOne(md5, u, Reads(p, ReadEtag));
  }

  /** A delete, a move of what is there or a removal is seen under the names it speaks of and under no others. */
  lemma NamesDoWhatTheySay(md5: Digest, s: System, act: NameAct, path: Path)
    requires WellFormed(md5, s) && (act.Move? ==> FileAt(s, Object(act.src)).Some?)
    ensures CanName(s, act) && FileAt(DoName(s, act), path) ==
            match act
            case Delete(key) => if path == Object(key) then None else FileAt(s, path)
            case Sweep(owner) => if path == Temp(owner) then None else FileAt(s, path)
            case Reap(gone) => if path == gone then None else FileAt(s, path)
            case Move(src, dst) =>
              if path == Object(dst) then FileAt(s, Object(src))
              else if path == Object(src) then None
              else FileAt(s, path)
  {
  }
}
