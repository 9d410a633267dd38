/**
 * What readers can rely on: a key always leads to a complete object, and an inode
 * that anybody can see never changes again.
 */
module CommitSafety {
  import opened Types
  import opened Etags
  import opened Sequences
  import opened Keys
  import opened Decimal
  import opened CommitProtocol
  import Multipart

  /** Bytes and etag of one finished upload or assembly, safely on disk. */
  ghost predicate Complete(s: System, ino: Ino) {
    && ino in s.heap
    && s.heap[ino].synced
    && s.heap[ino].etag.Some?
    && Version(s.heap[ino].data, s.heap[ino].etag.value) in s.finished
  }

  /** Each piece was uploaded whole. */
  ghost predicate AllUploaded(md5: Digest, finished: set<Version>, pieces: seq<bytes>) {
    forall i :: 0 <= i < |pieces| ==> Version(pieces[i], EtagOf(md5, pieces[i])) in finished
  }

  ghost predicate AssembledFrom(md5: Digest, finished: set<Version>, v: Version, pieces: seq<bytes>) {
    && v.data == Flatten(pieces)
    && v.etag == CompositeEtag(md5, Flatten(Digests(md5, pieces)), |pieces|)
    && AllUploaded(md5, finished, pieces)
  }

  /** The etag belongs to the bytes: their digest, or the composite of the uploads they consist of. */
  ghost predicate Genuine(md5: Digest, finished: set<Version>, v: Version) {
    v.etag == EtagOf(md5, v.data) || exists pieces :: AssembledFrom(md5, finished, v, pieces)
  }

  ghost predicate AllGenuine(md5: Digest, s: System) {
    forall v :: v in s.finished ==> Genuine(md5, s.finished, v)
  }

  /** No client names a `.lock` key. */
  predicate AvoidsLockKeys(a: Step) {
    match a
    case Begins(_, Put(key, _, _, _)) => !IsLockKey(key)
    case Begins(_, Copy(src, dst, _)) => !IsLockKey(src) && !IsLockKey(dst)
    case Begins(_, Assemble(key, _, _, _)) => !IsLockKey(key)
    case Begins(_, Open(key)) => !IsLockKey(key)
    case Names(Move(src, dst)) => !IsLockKey(src) && !IsLockKey(dst)
    case _ => true
  }

  /** A copy's source is not replaced before its attributes are read, and its temp file can be reopened. */
  predicate CopiesUndisturbed(s: System, a: Step) {
    match a
    case Prepares(p, Check) =>
      IsWriter(s, p) && s.procs[p].origin.CopyOf? && Object(s.procs[p].origin.src) in s.dir ==>
        s.dir[Object(s.procs[p].origin.src)] == s.procs[p].origin.from
    case Prepares(_, SkipSync) => false
    case _ => true
  }

  /** A part that is opened for copying still has the etag it is listed with. */
  predicate PartsUndisturbed(s: System, a: Step) {
    match a
    case Prepares(p, AppendPart) =>
      IsWriter(s, p) && Gathering(s.procs[p]) && |s.procs[p].stage.pieces| < |s.procs[p].origin.list| ==>
        var part := s.procs[p].origin.list[|s.procs[p].stage.pieces|];
        var path := Part(s.procs[p].origin.upload, part.number);
        path in s.dir ==> EtagAt(s, path) == Some(Some(part.etag))
    case _ => true
  }

  predicate Tame(s: System, a: Step) {
    AvoidsLockKeys(a) && CopiesUndisturbed(s, a) && PartsUndisturbed(s, a)
  }

  predicate IsLockFile(path: Path) {
    path.Object? && IsLockKey(path.key)
  }

  /** What a name leads to is complete; a part has the plain etag of its bytes. */
  ghost predicate NameOk(md5: Digest, s: System, path: Path)
    requires path in s.dir
  {
    && Complete(s, s.dir[path])
    && (path.Part? ==> s.heap[s.dir[path]].etag == Some(EtagOf(md5, s.heap[s.dir[path]].data)))
  }

  ghost predicate AllVisibleComplete(md5: Digest, s: System) {
    forall path :: path in s.dir && !path.Temp? && !IsLockFile(path) ==> NameOk(md5, s, path)
  }

  /** What an assembly has gathered so far: uploaded pieces and their digests, one digest ahead at times. */
  ghost predicate GatheredOk(md5: Digest, finished: set<Version>, w: Process)
    requires w.Writer? && w.stage.Assembling? && w.origin.Assembly?
  {
    var pieces, digests := w.stage.pieces, w.stage.digests;
    && |pieces| <= |digests| <= |w.origin.list| && |digests| <= |pieces| + 1
    && w.body == Flatten(pieces)
    && AllUploaded(md5, finished, pieces)
    && digests[..|pieces|] == Digests(md5, pieces)
    && (|pieces| < |digests| ==> HexDecode(TrimQuotes(w.origin.list[|pieces|].etag)) == Some(digests[|pieces|]))
  }

  ghost predicate ProcessOk(md5: Digest, s: System, p: Pid)
    requires p in s.procs
  {
    match s.procs[p]
    case Writer(dest, body, cond, origin, ino, tag, stage) =>
      && !IsLockFile(dest)
      && (stage.Assembling? ==> origin.Assembly? && GatheredOk(md5, s.finished, s.procs[p]))
      && (origin.CopyOf? ==>
            && Complete(s, origin.from) && s.heap[origin.from].data == body
            && (SyncReturned(stage) ==> ino in s.heap && s.heap[ino].synced)
            && (SyncReturned(stage) && !stage.Synced? ==> s.heap[origin.from].etag == Some(tag)))
    case Reader(key, ino, size, etag) =>
      && Complete(s, ino)
      && (size.Some? ==> size.value == |s.heap[ino].data|)
      && (etag.Some? ==> etag.value == s.heap[ino].etag)
  }

  ghost predicate Safe(md5: Digest, s: System) {
    && WellFormed(md5, s)
    && AllVisibleComplete(md5, s)
    && AllGenuine(md5, s)
    && (forall p :: p in s.procs ==> ProcessOk(md5, s, p))
  }

  lemma PrepareChangesHiddenOnly(md5: Digest, s: System, p: Pid, act: PrepareAct, ino: Ino)
    requires WellFormed(md5, s) && CanPrepare(s, p, act)
    requires ino in s.heap && !Hidden(s, ino)
    ensures ino in DoPrepare(md5, s, p, act).heap && DoPrepare(md5, s, p, act).heap[ino] == s.heap[ino]
  {
    assert WriterOk(md5, s, p);
  }

  /**
   * Write-once: whatever a key, an open handle or a running copy refers to is left alone by
   * every step of every process; a crash spares it as well once it is synced.
   */
  lemma VisibleInodesNeverChange(md5: Digest, s: System, a: Step, ino: Ino)
    requires WellFormed(md5, s) && Can(s, a)
    requires ino in s.heap && !Hidden(s, ino)
    ensures var t := Do(md5, s, a);
            && ino in t.heap
            && ((a.Crash? && !s.heap[ino].synced) || t.heap[ino] == s.heap[ino])
  {
    match a
    case Prepares(p, act) => PrepareChangesHiddenOnly(md5, s, p, act, ino);
    case Commits(p, act) => CommitChangesNoInode(s, p, act);
    case Begins(p, act) => BeginFrame(s, p, act);
    case _ =>
  }

  lemma CommitChangesNoInode(s: System, p: Pid, act: CommitAct)
    requires CanCommit(s, p, act)
    ensures forall i :: i in s.heap ==> i in DoCommit(s, p, act).heap && DoCommit(s, p, act).heap[i] == s.heap[i]
  {
  }

  lemma BeginFrame(s: System, p: Pid, act: BeginAct)
    requires CanBegin(s, p, act)
    ensures var t := DoBegin(s, p, act);
            && t.finished == s.finished && t.procs == s.procs[p := t.procs[p]]
            && (forall i :: i in s.heap ==> i in t.heap && t.heap[i] == s.heap[i])
  {
  }

  /** What one step of `actor` can do to records and inodes. */
  ghost predicate Framed(s: System, t: System, actor: Option<Pid>) {
    && s.finished <= t.finished
    && (forall i :: i in s.heap ==> i in t.heap && (s.heap[i].synced ==> t.heap[i].synced))
    && (forall q :: q in t.procs && actor != Some(q) ==> q in s.procs && t.procs[q] == s.procs[q])
  }

  /** The process that takes the step; `None` for steps of the file system itself. */
  function Actor(a: Step): Option<Pid> {
    if a.Names? || a.Crash? then None else Some(a.pid)
  }

  lemma PrepareFrame(md5: Digest, s: System, p: Pid, act: PrepareAct)
    requires CanPrepare(s, p, act)
    ensures Framed(s, DoPrepare(md5, s, p, act), Some(p))
  {
  }

  lemma CommitFrame(s: System, p: Pid, act: CommitAct)
    requires CanCommit(s, p, act)
    ensures Framed(s, DoCommit(s, p, act), Some(p))
  {
  }

  lemma StepFrame(md5: Digest, s: System, a: Step)
    requires Can(s, a)
    ensures Framed(s, Do(md5, s, a), Actor(a))
  {
    match a
    case Begins(p, act) => BeginFrame(s, p, act);
    case Prepares(p, act) => PrepareFrame(md5, s, p, act);
    case Commits(p, act) => CommitFrame(s, p, act);
    case _ =>
  }

  lemma CompletePersists(md5: Digest, s: System, a: Step, ino: Ino)
    requires WellFormed(md5, s) && Can(s, a) && Complete(s, ino) && !Hidden(s, ino)
    ensures Complete(Do(md5, s, a), ino) && Do(md5, s, a).heap[ino] == s.heap[ino]
  {
    StepFrame(md5, s, a);
    VisibleInodesNeverChange(md5, s, a, ino);
  }

  lemma LockPathIsLockKey(key: Key)
    ensures IsLockKey(key + LOCK_SUFFIX)
  {
    assert (key + LOCK_SUFFIX)[|key|..] == LOCK_SUFFIX;
  }

  /** A part's file ends with a digit, so it is never a lock file. */
  lemma PartIsNoLockFile(path: Path, number: nat)
    requires PartFile(path, number)
    ensures !IsLockFile(path)
  {
    DecimalDigits(number);
    if path.Object? {
      var key, n := path.key, ToDecimal(number);
      assert key[|key| - 1] == n[|n| - 1];
    }
  }

  /** Where a name that leads somewhere after a commit step got its inode from. */
  lemma CommitNames(md5: Digest, s: System, p: Pid, act: CommitAct, path: Path)
    requires WellFormed(md5, s) && CanCommit(s, p, act)
    requires path in DoCommit(s, p, act).dir && !path.Temp?
    ensures var t := DoCommit(s, p, act);
            || (path in s.dir && t.dir[path] == s.dir[path])
            || IsLockFile(path)
            || (AttributesSet(s.procs[p].stage) && path == s.procs[p].dest && t.dir[path] == s.procs[p].ino
                && t.heap == s.heap && t.finished == s.finished)
  {
    assert WriterOk(md5, s, p);
    if s.procs[p].dest.Object? {
      LockPathIsLockKey(s.procs[p].dest.key);
    }
  }

  lemma OnlyCommitsPublish(md5: Digest, s: System, a: Step, path: Path)
    requires Can(s, a) && !a.Names? && !a.Commits? && path in Do(md5, s, a).dir && !path.Temp?
    ensures path in s.dir && Do(md5, s, a).dir[path] == s.dir[path]
  {
    if a.Prepares? {
      PrepareKeepsDir(md5, s, a.pid, a.prepare);
    }
  }

  lemma PrepareKeepsDir(md5: Digest, s: System, p: Pid, act: PrepareAct)
    requires CanPrepare(s, p, act)
    ensures DoPrepare(md5, s, p, act).dir in {s.dir, s.dir - {Temp(p)}}
  {
  }

  /** The inode a commit is about to publish is a complete object, or a complete part with its own etag. */
  lemma CommitPublishesComplete(md5: Digest, s: System, p: Pid)
    requires Safe(md5, s) && IsWriter(s, p) && AttributesSet(s.procs[p].stage)
    ensures Complete(s, s.procs[p].ino)
    ensures s.procs[p].dest.Part? ==>
              s.heap[s.procs[p].ino].etag == Some(EtagOf(md5, s.heap[s.procs[p].ino].data))
  {
    assert WriterOk(md5, s, p);
    assert ProcessOk(md5, s, p);
  }

  /**
   * No rename of an upload, a part or an assembly happens before the sync of its own temp file has
   * returned successfully, and what it publishes is its whole body.
   */
  lemma PublishedOnlyAfterSync(md5: Digest, s: System, p: Pid, act: CommitAct)
    requires WellFormed(md5, s) && CanCommit(s, p, act) && !s.procs[p].origin.CopyOf?
    requires Published(DoCommit(s, p, act).procs[p].stage) && !Published(s.procs[p].stage)
    ensures var w := s.procs[p];
            && w.ino in s.heap && s.heap[w.ino].synced && s.heap[w.ino].data == w.body
            && w.dest in DoCommit(s, p, act).dir && DoCommit(s, p, act).dir[w.dest] == w.ino
  {
    assert WriterOk(md5, s, p);
  }

  lemma MovedName(md5: Digest, s: System, a: Step, path: Path) returns (from: Path)
    requires Can(s, a) && a.Names? && path in Do(md5, s, a).dir && !path.Temp?
    ensures from in s.dir && s.dir[from] == Do(md5, s, a).dir[path] && !from.Temp?
    ensures from == path || (a.name.Move? && from == Object(a.name.src) && path == Object(a.name.dst))
  {
    from := if a.name.Move? && path == Object(a.name.dst) then Object(a.name.src) else path;
  }

  lemma VisibleNameStaysOk(md5: Digest, s: System, a: Step, from: Path)
    requires Safe(md5, s) && Can(s, a) && from in s.dir && !from.Temp? && !IsLockFile(from)
    ensures var t := Do(md5, s, a);
            && Complete(t, s.dir[from]) && t.heap[s.dir[from]] == s.heap[s.dir[from]]
            && (from.Part? ==> t.heap[s.dir[from]].etag == Some(EtagOf(md5, t.heap[s.dir[from]].data)))
  {
    assert NameOk(md5, s, from);
    CompletePersists(md5, s, a, s.dir[from]);
  }

  /** A name's inode is the old one, or the one a move brought along, or just published. */
  lemma StepKeepsNameOk(md5: Digest, s: System, a: Step, path: Path)
    requires Safe(md5, s) && Can(s, a) && Tame(s, a)
    requires path in Do(md5, s, a).dir && !path.Temp? && !IsLockFile(path)
    ensures NameOk(md5, Do(md5, s, a), path)
  {
    if a.Names? {
      var from := MovedName(md5, s, a, path);
      VisibleNameStaysOk(md5, s, a, from);
    } else {
      if a.Commits? {
        CommitNames(md5, s, a.pid, a.commit, path);
      } else {
        OnlyCommitsPublish(md5, s, a, path);
      }
      if path in s.dir && s.dir[path] == Do(md5, s, a).dir[path] {
        VisibleNameStaysOk(md5, s, a, path);
      } else {
        CommitPublishesComplete(md5, s, a.pid);
      }
    }
  }

  lemma ReaderOkPersists(md5: Digest, s: System, t: System, p: Pid)
    requires p in s.procs && s.procs[p].Reader? && ProcessOk(md5, s, p)
    requires Complete(t, s.procs[p].ino) && t.heap[s.procs[p].ino] == s.heap[s.procs[p].ino]
    requires p in t.procs
    requires var r := s.procs[p];
             var inode := s.heap[r.ino];
             t.procs[p] in {r, r.(size := Some(|inode.data|)), r.(etag := Some(inode.etag))}
    ensures ProcessOk(md5, t, p)
  {
  }

  /** A reader's handle keeps its complete inode through any step. */
  lemma StepKeepsReaderOk(md5: Digest, s: System, a: Step, p: Pid)
    requires Safe(md5, s) && Can(s, a) && p in s.procs && s.procs[p].Reader?
    requires p in Do(md5, s, a).procs
    ensures ProcessOk(md5, Do(md5, s, a), p)
  {
    assert ProcessOk(md5, s, p);
    CompletePersists(md5, s, a, s.procs[p].ino);
    StepFrame(md5, s, a);
    ReaderOkPersists(md5, s, Do(md5, s, a), p);
  }

  lemma UploadedGrows(md5: Digest, before: set<Version>, after: set<Version>, pieces: seq<bytes>)
    requires before <= after && AllUploaded(md5, before, pieces)
    ensures AllUploaded(md5, after, pieces)
  {
  }

  lemma GenuineGrows(md5: Digest, before: set<Version>, after: set<Version>, v: Version)
    requires before <= after && Genuine(md5, before, v)
    ensures Genuine(md5, after, v)
  {
    if v.etag != EtagOf(md5, v.data) {
      var pieces :| AssembledFrom(md5, before, v, pieces);
      UploadedGrows(md5, before, after, pieces);
      assert AssembledFrom(md5, after, v, pieces);
    }
  }

  lemma OthersKeepWriter(md5: Digest, s: System, a: Step, p: Pid)
    requires Safe(md5, s) && Can(s, a) && IsWriter(s, p) && p in Do(md5, s, a).procs && Actor(a) != Some(p)
    ensures ProcessOk(md5, Do(md5, s, a), p)
  {
    assert ProcessOk(md5, s, p);
    assert WriterOk(md5, s, p);
    StepFrame(md5, s, a);
    if s.procs[p].origin.CopyOf? {
      CompletePersists(md5, s, a, s.procs[p].origin.from);
    }
    if s.procs[p].stage.Assembling? {
      UploadedGrows(md5, s.finished, Do(md5, s, a).finished, s.procs[p].stage.pieces);
    }
  }

  lemma CheckPartKeepsGathered(md5: Digest, s: System, p: Pid)
    requires Safe(md5, s) && CanPrepare(s, p, CheckPart)
    ensures ProcessOk(md5, DoCheckPart(s, p), p)
  {
    assert ProcessOk(md5, s, p);
    var t := DoCheckPart(s, p);
    if t.procs[p].stage.Assembling? {
      var before, after := s.procs[p].stage, t.procs[p].stage;
      assert after.digests[..|after.pieces|] == before.digests[..|before.pieces|];
    }
  }

  /** Equal etags have equal digests. */
  lemma ListedDigest(md5: Digest, etag: string, raw: bytes, data: bytes)
    requires HexDecode(TrimQuotes(etag)) == Some(raw) && etag == EtagOf(md5, data)
    ensures raw == md5(data)
  {
    EtagRoundTrip(md5, data);
  }

  lemma OneMoreDigest(md5: Digest, pieces: seq<bytes>, digests: seq<bytes>, piece: bytes)
    requires |pieces| < |digests| && digests[..|pieces|] == Digests(md5, pieces) && digests[|pieces|] == md5(piece)
    ensures digests[..|pieces| + 1] == Digests(md5, pieces + [piece])
  {
    assert digests[..|pieces| + 1] == digests[..|pieces|] + [digests[|pieces|]];
    assert Digests(md5, pieces + [piece]) == Digests(md5, pieces) + [md5(piece)];
  }

  lemma AppendPartKeepsGathered(md5: Digest, s: System, p: Pid)
    requires Safe(md5, s) && CanPrepare(s, p, AppendPart) && Tame(s, Prepares(p, AppendPart))
    ensures ProcessOk(md5, DoAppendPart(s, p), p)
  {
    assert ProcessOk(md5, s, p);
    var w := s.procs[p];
    var part := w.origin.list[|w.stage.pieces|];
    var path := Part(w.origin.upload, part.number);
    if path in s.dir {
      assert NameOk(md5, s, path);
      var piece := s.heap[s.dir[path]].data;
      ListedDigest(md5, part.etag, w.stage.digests[|w.stage.pieces|], piece);
      FlattenSnoc(w.stage.pieces, piece);
      OneMoreDigest(md5, w.stage.pieces, w.stage.digests, piece);
    }
  }

  /** A writer's own steps; for a copy only the sync and the attribute read matter. */
  lemma PrepareKeepsWriter(md5: Digest, s: System, p: Pid, act: PrepareAct)
    requires Safe(md5, s) && CanPrepare(s, p, act) && Tame(s, Prepares(p, act))
    ensures ProcessOk(md5, DoPrepare(md5, s, p, act), p)
  {
    assert ProcessOk(md5, s, p);
    assert WriterOk(md5, s, p);
    if act.CheckPart? {
      CheckPartKeepsGathered(md5, s, p);
    } else if act.AppendPart? {
      AppendPartKeepsGathered(md5, s, p);
    } else if s.procs[p].origin.CopyOf? {
      CopyPrepareKeepsWriter(md5, s, p, act);
    }
  }

  lemma CopyPrepareKeepsWriter(md5: Digest, s: System, p: Pid, act: PrepareAct)
    requires Safe(md5, s) && CanPrepare(s, p, act) && Tame(s, Prepares(p, act)) && s.procs[p].origin.CopyOf?
    ensures ProcessOk(md5, DoPrepare(md5, s, p, act), p)
  {
    assert ProcessOk(md5, s, p);
    assert WriterOk(md5, s, p);
    CompletePersists(md5, s, Prepares(p, act), s.procs[p].origin.from);
  }

  /** An upload's version is genuine by its digest, an assembly's by its pieces. */
  lemma EndStreamGenuine(md5: Digest, s: System, p: Pid)
    requires Safe(md5, s) && CanPrepare(s, p, EndStream) && !s.procs[p].origin.CopyOf?
    ensures var t := DoEndStream(md5, s, p);
            Genuine(md5, s.finished, Version(t.procs[p].body, t.procs[p].tag))
  {
    assert ProcessOk(md5, s, p);
    var w := s.procs[p];
    if w.stage.Assembling? {
      var pieces, digests := w.stage.pieces, w.stage.digests;
      assert digests[..|pieces|] == digests;
      var v := Version(w.body, CompositeEtag(md5, Flatten(digests), |w.origin.list|));
      assert AssembledFrom(md5, s.finished, v, pieces);
    }
  }

  lemma OnlyEndStreamFinishes(md5: Digest, s: System, a: Step)
    requires Can(s, a) && !(a.Prepares? && a.prepare.EndStream?)
    ensures Do(md5, s, a).finished == s.finished
  {
    match a
    case Prepares(p, act) =>
    case Commits(p, act) =>
    case _ =>
  }

  lemma StepKeepsGenuine(md5: Digest, s: System, a: Step)
    requires Safe(md5, s) && Can(s, a)
    ensures AllGenuine(md5, Do(md5, s, a))
  {
    var t := Do(md5, s, a);
    if a.Prepares? && a.prepare.EndStream? {
      if !s.procs[a.pid].origin.CopyOf? {
        EndStreamGenuine(md5, s, a.pid);
      }
      forall v | v in t.finished ensures Genuine(md5, t.finished, v) {
        GenuineGrows(md5, s.finished, t.finished, v);
      }
    } else {
      OnlyEndStreamFinishes(md5, s, a);
    }
  }

  /** A commit step starts after the attributes are set and never goes back. */
  lemma CommitStages(s: System, p: Pid, act: CommitAct)
    requires CanCommit(s, p, act)
    ensures var w := DoCommit(s, p, act).procs[p];
            && w == s.procs[p].(stage := w.stage)
            && !w.stage.Assembling? && !w.stage.Synced?
            && (SyncReturned(w.stage) ==> AttributesSet(s.procs[p].stage))
  {
  }

  lemma CommitKeepsWriter(md5: Digest, s: System, p: Pid, act: CommitAct)
    requires Safe(md5, s) && CanCommit(s, p, act)
    ensures ProcessOk(md5, DoCommit(s, p, act), p)
  {
    assert ProcessOk(md5, s, p);
    assert WriterOk(md5, s, p);
    CommitFrame(s, p, act);
    CommitStages(s, p, act);
    CommitChangesNoInode(s, p, act);
  }

  lemma NewcomerOk(md5: Digest, s: System, p: Pid, act: BeginAct)
    requires Safe(md5, s) && CanBegin(s, p, act) && Tame(s, Begins(p, act))
    ensures ProcessOk(md5, DoBegin(s, p, act), p)
  {
    var a := Begins(p, act);
    if act.Open? {
      CompletePersists(md5, s, a, s.dir[Object(act.key)]);
    } else if act.Copy? {
      CompletePersists(md5, s, a, s.dir[Object(act.src)]);
    } else if act.PutPart? {
      PartIsNoLockFile(act.dest, act.number);
    }
  }

  lemma StepKeepsProcessOk(md5: Digest, s: System, a: Step, p: Pid)
    requires Safe(md5, s) && Can(s, a) && Tame(s, a) && p in Do(md5, s, a).procs
    ensures ProcessOk(md5, Do(md5, s, a), p)
  {
    StepFrame(md5, s, a);
    if p !in s.procs {
      NewcomerOk(md5, s, p, a.begin);
    } else if s.procs[p].Reader? {
      StepKeepsReaderOk(md5, s, a, p);
    } else if Actor(a) == Some(p) {
      if a.Prepares? {
        PrepareKeepsWriter(md5, s, p, a.prepare);
      } else {
        CommitKeepsWriter(md5, s, p, a.commit);
      }
    } else {
      OthersKeepWriter(md5, s, a, p);
    }
  }

  lemma StepKeepsSafe(md5: Digest, s: System, a: Step)
    requires Safe(md5, s) && Can(s, a) && Tame(s, a)
    ensures Safe(md5, Do(md5, s, a))
  {
    var t := Do(md5, s, a);
    StepKeepsWellFormed(md5, s, a);
    StepKeepsGenuine(md5, s, a);
    forall path | path in t.dir && !path.Temp? && !IsLockFile(path) ensures NameOk(md5, t, path) {
      StepKeepsNameOk(md5, s, a, path);
    }
    forall p | p in t.procs ensures ProcessOk(md5, t, p) {
      StepKeepsProcessOk(md5, s, a, p);
    }
  }

  predicate TameRun(md5: Digest, s: System, steps: seq<Step>)
    requires Legal(md5, s, steps)
    decreases |steps|
  {
    steps == [] || (Tame(s, steps[0]) && TameRun(md5, Do(md5, s, steps[0]), steps[1..]))
  }

  lemma {:induction false} RunKeepsSafe(md5: Digest, s: System, steps: seq<Step>)
    requires Safe(md5, s) && Legal(md5, s, steps) && TameRun(md5, s, steps)
    ensures Safe(md5, Run(md5, s, steps))
    decreases |steps|
  {
    if steps == [] {
    } else {
      StepKeepsSafe(md5, s, steps[0]);
      RunKeepsSafe(md5, Do(md5, s, steps[0]), steps[1..]);
    }
  }

  /**
   * In every state any interleaving of uploads, parts, assemblies and copies reaches from the empty
   * store, crashes and sweeps included, a key leads to the bytes and etag of one finished upload or
   * assembly, synced to disk; the etag is the digest of the bytes, or for an assembly the composite of
   * the uploads its bytes consist of.
   */
  lemma VisibleObjectsAreComplete(md5: Digest, steps: seq<Step>, k: Key)
    requires Legal(md5, EMPTY, steps) && TameRun(md5, EMPTY, steps)
    requires Object(k) in Run(md5, EMPTY, steps).dir && !IsLockKey(k)
    ensures var t := Run(md5, EMPTY, steps);
            var ino := t.dir[Object(k)];
            && ino in t.heap && t.heap[ino].synced && t.heap[ino].etag.Some?
            && Version(t.heap[ino].data, t.heap[ino].etag.value) in t.finished
            && Genuine(md5, t.finished, Version(t.heap[ino].data, t.heap[ino].etag.value))
  {
    RunKeepsSafe(md5, EMPTY, steps);
    assert NameOk(md5, Run(md5, EMPTY, steps), Object(k));
  }

  /** A process name is never taken twice, not even after a crash. */
  lemma {:induction false} GoneStaysGone(md5: Digest, s: System, steps: seq<Step>, p: Pid)
    requires Legal(md5, s, steps) && p in s.used && p !in s.procs
    ensures p !in Run(md5, s, steps).procs
    decreases |steps|
  {
    if steps == [] {
    } else {
      StepFrame(md5, s, steps[0]);
      UsedGrows(md5, s, steps[0]);
      GoneStaysGone(md5, Do(md5, s, steps[0]), steps[1..], p);
    }
  }

  /** A crash ends every process and lets go of every lock, and no name in use is ever taken up again. */
  lemma NothingSurvivesACrash(md5: Digest, s: System, lost: map<Ino, bytes>, steps: seq<Step>, p: Pid)
    requires CanCrash(s, lost) && Legal(md5, Do(md5, s, Crash(lost)), steps) && p in s.used
    ensures p !in Run(md5, Do(md5, s, Crash(lost)), steps).procs
    ensures Do(md5, s, Crash(lost)).flocks == map[] && Do(md5, s, Crash(lost)).dir == s.dir
  {
    GoneStaysGone(md5, Do(md5, s, Crash(lost)), steps, p);
  }

  lemma UsedGrows(md5: Digest, s: System, a: Step)
    requires Can(s, a)
    ensures s.used <= Do(md5, s, a).used
    ensures forall p :: p in Do(md5, s, a).procs && p !in s.procs ==> p !in s.used
  {
    match a
    case Prepares(p, act) => PrepareKeepsNames(md5, s, p, act);
    case Commits(p, act) => CommitKeepsNames(s, p, act);
    case _ =>
  }

  lemma PrepareKeepsNames(md5: Digest, s: System, p: Pid, act: PrepareAct)
    requires CanPrepare(s, p, act)
    ensures DoPrepare(md5, s, p, act).used == s.used && DoPrepare(md5, s, p, act).procs.Keys == s.procs.Keys
  {
  }

  lemma CommitKeepsNames(s: System, p: Pid, act: CommitAct)
    requires CanCommit(s, p, act)
    ensures DoCommit(s, p, act).used == s.used && DoCommit(s, p, act).procs.Keys == s.procs.Keys
  {
  }

  lemma HandleStep(md5: Digest, s: System, a: Step, p: Pid)
    requires Safe(md5, s) && Can(s, a) && p in s.procs && s.procs[p].Reader? && p in Do(md5, s, a).procs
    ensures var t := Do(md5, s, a);
            && t.procs[p].Reader? && t.procs[p].ino == s.procs[p].ino
            && t.procs[p].ino in t.heap && t.heap[t.procs[p].ino] == s.heap[s.procs[p].ino]
  {
    assert ProcessOk(md5, s, p);
    CompletePersists(md5, s, a, s.procs[p].ino);
    StepFrame(md5, s, a);
  }

  /**
   * An open handle: however other processes overwrite, move, delete or sweep, a reader keeps the
   * inode it opened, and the size and etag it reports belong to that inode's one finished version.
   */
  lemma {:induction false} HandleKeepsItsObject(md5: Digest, s: System, steps: seq<Step>, p: Pid)
    requires Safe(md5, s) && Legal(md5, s, steps) && TameRun(md5, s, steps)
    requires p in s.procs && s.procs[p].Reader? && p in Run(md5, s, steps).procs
    ensures var t := Run(md5, s, steps);
            && t.procs[p].Reader? && t.procs[p].ino == s.procs[p].ino
            && t.procs[p].ino in t.heap && t.heap[t.procs[p].ino] == s.heap[s.procs[p].ino]
            && Complete(t, t.procs[p].ino)
            && Genuine(md5, t.finished, Version(t.heap[t.procs[p].ino].data, t.heap[t.procs[p].ino].etag.value))
            && (t.procs[p].size.Some? ==> t.procs[p].size.value == |t.heap[t.procs[p].ino].data|)
            && (t.procs[p].etag.Some? ==> t.procs[p].etag.value == t.heap[t.procs[p].ino].etag)
    decreases |steps|
  {
    assert ProcessOk(md5, s, p);
    if steps == [] {
    } else {
      var a := steps[0];
      if p !in Do(md5, s, a).procs {
        UsedGrows(md5, s, a);
        GoneStaysGone(md5, Do(md5, s, a), steps[1..], p);
      }
      StepKeepsSafe(md5, s, a);
      HandleStep(md5, s, a, p);
      HandleKeepsItsObject(md5, Do(md5, s, a), steps[1..], p);
    }
  }
}
