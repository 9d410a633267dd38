/**
 * Where the commit protocol's guarantees end: concrete runs that the hypotheses
 * of the safety and compare-and-swap theorems rule out.
 */
module CommitLimits {
  import opened Types
  import opened Etags
  import opened CommitProtocol
  import opened CommitSafety
  import opened CompareAndSwap
  import opened GuardedSwap
  import opened CommitRuns
  import Sequences

  /** One finished object `x` at `src` and nothing else. */
  ghost predicate SourceStored(md5: Digest, s: System, x: bytes, src: Key) {
    && s.used == {0} && s.heap == map[0 := Inode(0, x, true, Some(EtagOf(md5, x)))]
    && s.dir == map[Object(src) := 0] && s.procs.Keys == {0} && Member(s, 0, src)
    && s.procs[0].origin.Upload? && s.flocks == map[]
    && s.finished == {Version(x, EtagOf(md5, x))}
  }

  lemma LeadsToSource(md5: Digest, x: bytes, src: Key) returns (steps: seq<Step>, t: System)
    ensures Leads(md5, EMPTY, steps, t) && SourceStored(md5, t, x, src)
    ensures OnlyProcessSteps(steps)
  {
    LeadsNowhere(md5, EMPTY);
    steps, t := LeadsThroughUpload(md5, EMPTY, [], EMPTY, 0, src, x, Plain, 0);
    steps, t := LeadsOn(md5, EMPTY, steps, t, Commits(0, Rename(true)));
  }

  // ---- If-Match ----

  /** Writer 1 has renamed `y` onto `k` and not yet removed its lock file. */
  ghost predicate JustRenamed(md5: Digest, s: System, y: bytes, k: Key) {
    && s.used == {0, 1} && s.heap.Keys == {0, 1, 10} && s.flocks == map[10 := 1]
    && Object(k) in s.dir && s.dir[Object(k)] == 1 && s.heap[1].etag == Some(EtagOf(md5, y))
    && LockPath(k) in s.dir && s.dir[LockPath(k)] == 10
    && Member(s, 1, k) && s.procs[1].stage == Renamed(10)
  }

  lemma LeadsToJustRenamed(md5: Digest, x: bytes, y: bytes, k: Key) returns (steps: seq<Step>, t: System)
    ensures Leads(md5, EMPTY, steps, t) && JustRenamed(md5, t, y, k) && OnlyProcessSteps(steps)
  {
    LockPathIsAnother(k);
    steps, t := LeadsToSource(md5, x, k);
    steps, t := LeadsThroughUpload(md5, EMPTY, steps, t, 1, k, y, IfMatch(EtagOf(md5, x)), 1);
    steps, t := LeadsThroughLock(md5, EMPTY, steps, t, 1, k, 10);
    steps, t := LeadsOn(md5, EMPTY, steps, t, Commits(1, RenameLocked));
  }

  /** Writer 2 has opened the lock file that writer 1 still holds. */
  ghost predicate OpenWaiter(md5: Digest, s: System, x: bytes, y: bytes, k: Key) {
    && s.used == {0, 1, 2} && s.heap.Keys == {0, 1, 2, 10} && s.flocks == map[10 := 1]
    && Object(k) in s.dir && s.dir[Object(k)] == 1 && s.heap[1].etag == Some(EtagOf(md5, y))
    && Temp(2) in s.dir && s.dir[Temp(2)] == 2 && s.heap[2].etag == Some(EtagOf(md5, x))
    && Member(s, 1, k) && s.procs[1].stage == Renamed(10)
    && 2 in s.procs
    && s.procs[2] == Writer(Object(k), x, IfMatch(EtagOf(md5, y)), Upload, 2, EtagOf(md5, x), LockOpen(10))
  }

  lemma LeadsToOpenWaiter(md5: Digest, x: bytes, y: bytes, k: Key) returns (steps: seq<Step>, t: System)
    ensures Leads(md5, EMPTY, steps, t) && OpenWaiter(md5, t, x, y, k) && OnlyProcessSteps(steps)
  {
    steps, t := LeadsToJustRenamed(md5, x, y, k);
    steps, t := LeadsThroughUpload(md5, EMPTY, steps, t, 2, k, x, IfMatch(EtagOf(md5, y)), 2);
    steps, t := LeadsOn(md5, EMPTY, steps, t, Commits(2, OpenLock(10)));
  }

  /** Writer 1 has swapped `k` to `y` and gone; writer 2 has the removed lock file open or locked. */
  ghost predicate StaleWaiter(md5: Digest, s: System, x: bytes, y: bytes, k: Key, stage: Stage) {
    && s.used == {0, 1, 2} && s.heap.Keys == {0, 1, 2, 10} && s.flocks.Keys <= {10}
    && Object(k) in s.dir && s.dir[Object(k)] == 1 && s.heap[1].etag == Some(EtagOf(md5, y))
    && LockPath(k) !in s.dir
    && Temp(2) in s.dir && s.dir[Temp(2)] == 2 && s.heap[2].etag == Some(EtagOf(md5, x))
    && 2 in s.procs
    && s.procs[2] == Writer(Object(k), x, IfMatch(EtagOf(md5, y)), Upload, 2, EtagOf(md5, x), stage)
  }

  lemma LeadsToStaleWaiter(md5: Digest, x: bytes, y: bytes, k: Key) returns (steps: seq<Step>, t: System)
    ensures Leads(md5, EMPTY, steps, t) && StaleWaiter(md5, t, x, y, k, LockOpen(10)) && t.flocks == map[]
    ensures OnlyProcessSteps(steps)
  {
    LockPathIsAnother(k);
    steps, t := LeadsToOpenWaiter(md5, x, y, k);
    steps, t := LeadsOn(md5, EMPTY, steps, t, Commits(1, UnlinkLock));
    steps, t := LeadsOn(md5, EMPTY, steps, t, Commits(1, Release));
  }

  lemma LeadsToStaleVerified(md5: Digest, x: bytes, y: bytes, k: Key) returns (steps: seq<Step>, t: System)
    ensures Leads(md5, EMPTY, steps, t) && StaleWaiter(md5, t, x, y, k, Verified(10)) && OnlyProcessSteps(steps)
  {
    steps, t := LeadsToStaleWaiter(md5, x, y, k);
    steps, t := LeadsOn(md5, EMPTY, steps, t, Commits(2, Flock));
    steps, t := LeadsOn(md5, EMPTY, steps, t, Commits(2, Recheck));
  }

  /** Writers 2 and 3 are both past the re-check, on different lock files. */
  ghost predicate BothVerified(md5: Digest, s: System, x: bytes, z: bytes, e: string, k: Key) {
    && Object(k) in s.dir && Temp(2) in s.dir && s.dir[Temp(2)] == 2 && Temp(3) in s.dir
    && 2 in s.heap && s.heap[2].etag == Some(EtagOf(md5, x))
    && 2 in s.procs && s.procs[2] == Writer(Object(k), x, IfMatch(e), Upload, 2, EtagOf(md5, x), Verified(10))
    && 3 in s.procs && s.procs[3] == Writer(Object(k), z, IfMatch(e), Upload, 3, EtagOf(md5, z), Verified(11))
  }

  lemma LeadsToBothVerified(md5: Digest, x: bytes, y: bytes, z: bytes, k: Key) returns (steps: seq<Step>, t: System)
    ensures Leads(md5, EMPTY, steps, t) && BothVerified(md5, t, x, z, EtagOf(md5, y), k) && OnlyProcessSteps(steps)
  {
    LockPathIsAnother(k);
    steps, t := LeadsToStaleVerified(md5, x, y, k);
    steps, t := LeadsThroughUpload(md5, EMPTY, steps, t, 3, k, z, IfMatch(EtagOf(md5, y)), 3);
    steps, t := LeadsThroughLock(md5, EMPTY, steps, t, 3, k, 11);
  }

  /**
   * A lost update: two writers that expect `y` both succeed, and the second replaces the `x` that the
   * first has just published. A swap before them unlinked the lock file on which the first one waited,
   * so the second locked a new one.
   */
  lemma TwoWinners(md5: Digest, x: bytes, y: bytes, z: bytes, k: Key) returns (steps: seq<Step>, t: System)
    requires EtagOf(md5, x) != EtagOf(md5, y)
    ensures Leads(md5, EMPTY, steps, t) && OnlyProcessSteps(steps)
    ensures Member(t, 2, k) && t.procs[2].body == x && Member(t, 3, k) && t.procs[3].body == z
    ensures forall p | p in {2, 3} :: t.procs[p].cond == IfMatch(EtagOf(md5, y)) && t.procs[p].stage.Succeeded?
    ensures !SwapsMatch(md5, EMPTY, steps, k)
  {
    LockPathIsAnother(k);
    EtagIsNoWildcard(md5, y);
    steps, t := LeadsToBothVerified(md5, x, y, z, k);
    steps, t := LeadsThroughSwap(md5, EMPTY, steps, t, 2, k);
    assert EtagAt(t, Object(k)) == Some(Some(EtagOf(md5, x)));
    assert IsMismatch(t, Commits(3, RenameLocked), k);
    steps, t := LeadsThroughSwap(md5, EMPTY, steps, t, 3, k);
  }

  /**
   * If-Match on a missing key ends with an attribute error that leaves the temp file, not with the
   * not-found answer, which only an object without etag gives; a mismatch cleans up as well.
   */
  lemma MissingKeyIsAttributeError(md5: Digest, s: System, p: Pid)
    requires WellFormed(md5, s) && CanPrepare(s, p, Check) && s.procs[p].cond.IfMatch? && Temp(p) in s.dir
    ensures var w := s.procs[p];
            var r := CheckResult(s, w.dest, w.cond.expected);
            && (r == Err(XattrError) <==> w.dest !in s.dir)
            && (r == Err(NotFound) <==> w.dest in s.dir && s.heap[s.dir[w.dest]].etag.None?)
            && (r.Err? <==> DoCheck(s, p).procs[p].stage.Failed?)
            && (r.Err? ==> (Temp(p) in DoCheck(s, p).dir <==> w.dest !in s.dir))
  {
    assert WriterOk(md5, s, p);
  }

  // ---- Lock files ----

  /** Finished objects `x` at `k` and `y` at `k.lock`. */
  ghost predicate ObjectAtLockPath(md5: Digest, s: System, x: bytes, k: Key) {
    && s.used == {0, 1} && s.heap.Keys == {0, 1} && s.flocks == map[]
    && Object(k) in s.dir && s.dir[Object(k)] == 0 && s.heap[0].etag == Some(EtagOf(md5, x))
    && LockPath(k) in s.dir && s.dir[LockPath(k)] == 1
    && IsWriter(s, 1) && s.procs[1].dest == LockPath(k) && s.procs[1].stage.Succeeded?
    && (forall p :: p in s.procs ==>
          IsWriter(s, p) && s.procs[p].origin.Upload? && s.procs[p].dest in {Object(k), LockPath(k)})
  }

  lemma LeadsToObjectAtLockPath(md5: Digest, x: bytes, y: bytes, k: Key) returns (steps: seq<Step>, t: System)
    ensures Leads(md5, EMPTY, steps, t) && ObjectAtLockPath(md5, t, x, k)
    ensures OnlyProcessSteps(steps)
  {
    LockPathIsAnother(k);
    steps, t := LeadsToSource(md5, x, k);
    steps, t := LeadsThroughUpload(md5, EMPTY, steps, t, 1, LockPath(k).key, y, Plain, 1);
    steps, t := LeadsOn(md5, EMPTY, steps, t, Commits(1, Rename(true)));
  }

  /**
   * Why safety excludes `.lock` keys: an If-Match write to `k` takes an object stored under
   * `k.lock` for its lock file and removes it, although nobody deleted or moved it.
   */
  lemma LockKeyLost(md5: Digest, x: bytes, y: bytes, k: Key)
    returns (before: seq<Step>, s: System, after: seq<Step>, t: System)
    ensures Leads(md5, EMPTY, before, s) && Leads(md5, s, after, t)
    ensures OnlyProcessSteps(before) && OnlyProcessSteps(after)
    ensures forall p :: p in t.procs ==>
              IsWriter(t, p) && t.procs[p].origin.Upload? && t.procs[p].dest in {Object(k), LockPath(k)}
    ensures IsWriter(s, 1) && s.procs[1].dest == LockPath(k) && s.procs[1].stage.Succeeded?
    ensures LockPath(k) in s.dir && LockPath(k) !in t.dir
  {
    LockPathIsAnother(k);
    before, s := LeadsToObjectAtLockPath(md5, x, y, k);
    LeadsNowhere(md5, s);
    after, t := LeadsThroughUpload(md5, s, [], s, 2, k, y, IfMatch(EtagOf(md5, x)), 2);
    after, t := LeadsThroughLock(md5, s, after, t, 2, k, 3);
    after, t := LeadsThroughSwap(md5, s, after, t, 2, k);
  }

  /** While an If-Match write runs, its lock file can be read under a key and is no object. */
  lemma LockFileVisible(md5: Digest, x: bytes, y: bytes, k: Key) returns (steps: seq<Step>, t: System)
    ensures Leads(md5, EMPTY, steps, t) && OnlyProcessSteps(steps)
    ensures LockPath(k) in t.dir && !Complete(t, t.dir[LockPath(k)])
  {
    LockPathIsAnother(k);
    steps, t := LeadsToSource(md5, x, k);
    steps, t := LeadsThroughUpload(md5, EMPTY, steps, t, 1, k, y, IfMatch(EtagOf(md5, x)), 1);
    steps, t := LeadsOn(md5, EMPTY, steps, t, Commits(1, OpenLock(10)));
  }

  // ---- Copies ----

  /** The copy has the source's bytes and waits for its sync. */
  ghost predicate BytesCopied(md5: Digest, s: System, x: bytes, src: Key, dst: Key) {
    && s.used == {0, 1} && s.heap.Keys == {0, 1}
    && Object(src) in s.dir && s.dir[Object(src)] == 0 && s.heap[0].etag == Some(EtagOf(md5, x))
    && Temp(1) in s.dir && s.dir[Temp(1)] == 1 && s.heap[1] == Inode(1, x, false, None)
    && IsWriter(s, 1) && s.procs[1] == Writer(Object(dst), x, Plain, CopyOf(src, 0), 1, "", Streamed)
    && s.finished == {Version(x, EtagOf(md5, x))}
  }

  lemma LeadsToBytesCopied(md5: Digest, x: bytes, src: Key, dst: Key) returns (steps: seq<Step>, t: System)
    ensures Leads(md5, EMPTY, steps, t) && BytesCopied(md5, t, x, src, dst) && OnlyProcessSteps(steps)
  {
    steps, t := LeadsToSource(md5, x, src);
    steps, t := LeadsOn(md5, EMPTY, steps, t, Begins(1, Copy(src, dst, 1)));
    if x != [] {
      assert [] + x[0..|x|] == x;
      steps, t := LeadsOn(md5, EMPTY, steps, t, Prepares(1, Chunk(|x|)));
    }
    steps, t := LeadsOn(md5, EMPTY, steps, t, Prepares(1, EndStream));
  }

  /** The copy has the old bytes, synced; the source leads to `y` by now. */
  ghost predicate Overwritten(md5: Digest, s: System, x: bytes, y: bytes, src: Key, dst: Key) {
    && EtagAt(s, Object(src)) == Some(Some(EtagOf(md5, y)))
    && Temp(1) in s.dir && s.dir[Temp(1)] == 1
    && 1 in s.heap && s.heap[1] == Inode(1, x, true, None)
    && IsWriter(s, 1) && s.procs[1] == Writer(Object(dst), x, Plain, CopyOf(src, 0), 1, "", Synced)
    && s.finished == {Version(x, EtagOf(md5, x)), Version(y, EtagOf(md5, y))}
  }

  lemma LeadsToOverwritten(md5: Digest, x: bytes, y: bytes, src: Key, dst: Key)
    returns (steps: seq<Step>, t: System)
    requires src != dst
    ensures Leads(md5, EMPTY, steps, t) && Overwritten(md5, t, x, y, src, dst) && OnlyProcessSteps(steps)
  {
    steps, t := LeadsToBytesCopied(md5, x, src, dst);
    steps, t := LeadsOn(md5, EMPTY, steps, t, Prepares(1, Sync));
    steps, t := LeadsThroughUpload(md5, EMPTY, steps, t, 2, src, y, Plain, 2);
    steps, t := LeadsOn(md5, EMPTY, steps, t, Commits(2, Rename(true)));
  }

  /**
   * Why safety asks for an undisturbed copy: when the source is overwritten between the copy of
   * its bytes and the read of its attributes, the destination pairs old bytes with the new etag.
   */
  lemma TornCopy(md5: Digest, x: bytes, y: bytes, src: Key, dst: Key) returns (steps: seq<Step>, t: System)
    requires src != dst && EtagOf(md5, x) != EtagOf(md5, y)
    ensures Leads(md5, EMPTY, steps, t) && OnlyProcessSteps(steps)
    ensures Object(dst) in t.dir && t.dir[Object(dst)] in t.heap
    ensures t.heap[t.dir[Object(dst)]].data == x && t.heap[t.dir[Object(dst)]].etag == Some(EtagOf(md5, y))
    ensures !Complete(t, t.dir[Object(dst)])
  {
    steps, t := LeadsToOverwritten(md5, x, y, src, dst);
    steps, t := LeadsOn(md5, EMPTY, steps, t, Prepares(1, Check));
    steps, t := LeadsOn(md5, EMPTY, steps, t, Prepares(1, Tag));
    steps, t := LeadsOn(md5, EMPTY, steps, t, Commits(1, Rename(true)));
  }

  /** A copy whose temp file could not be reopened is published unsynced, and a crash can empty it. */
  lemma SkippedSyncLosesBytes(md5: Digest, x: bytes, src: Key, dst: Key) returns (steps: seq<Step>, t: System)
    requires x != [] && src != dst
    ensures Leads(md5, EMPTY, steps, t)
    ensures Object(dst) in t.dir && t.dir[Object(dst)] in t.heap && t.heap[t.dir[Object(dst)]].data == []
    ensures t.heap[t.dir[Object(dst)]].etag == Some(EtagOf(md5, x))
    ensures !Complete(t, t.dir[Object(dst)])
  {
    steps, t := LeadsToBytesCopied(md5, x, src, dst);
    steps, t := LeadsOn(md5, EMPTY, steps, t, Prepares(1, SkipSync));
    steps, t := LeadsOn(md5, EMPTY, steps, t, Prepares(1, Check));
    steps, t := LeadsOn(md5, EMPTY, steps, t, Prepares(1, Tag));
    steps, t := LeadsOn(md5, EMPTY, steps, t, Commits(1, Rename(true)));
    steps, t := LeadsOn(md5, EMPTY, steps, t, Crash(map i | i in t.heap :: []));
  }

  /** The rest of a copy, run on its own: sync or not, read the source's attributes, write them, rename. */
  function FinishCopy(md5: Digest, s: System, p: Pid, sync: bool): System
    requires WellFormed(md5, s) && CanPrepare(s, p, Sync) && s.procs[p].origin.CopyOf?
    requires Temp(p) in s.dir && Object(s.procs[p].origin.src) in s.dir
  {
    assert WriterOk(md5, s, p);
    var t := DoPrepare(md5, s, p, if sync then Sync else SkipSync);
    var u := DoPrepare(md5, t, p, Check);
    DoCommit(DoPrepare(md5, u, p, Tag), p, Rename(true))
  }

  /**
   * A copy ends as a complete object exactly when its sync was not skipped and the bytes copied are a
   * finished version under the etag that the source path has when its attributes are read.
   */
  lemma CopyIsWholeExactly(md5: Digest, s: System, p: Pid, sync: bool)
    requires Safe(md5, s) && CanPrepare(s, p, Sync) && s.procs[p].origin.CopyOf?
    requires Temp(p) in s.dir && Object(s.procs[p].origin.src) in s.dir && !IsLockKey(s.procs[p].origin.src)
    ensures var w := s.procs[p];
            var t := FinishCopy(md5, s, p, sync);
            var now := s.heap[s.dir[Object(w.origin.src)]].etag;
            && w.dest in t.dir && t.dir[w.dest] == w.ino
            && (Complete(t, w.ino) <==> sync && now.Some? && Version(w.body, now.value) in s.finished)
  {
    var w := s.procs[p];
    assert WriterOk(md5, s, p) && ProcessOk(md5, s, p);
    assert NameOk(md5, s, Object(w.origin.src));
    FinishedCopy(md5, s, p, sync);
  }

  lemma FinishedCopy(md5: Digest, s: System, p: Pid, sync: bool)
    requires WellFormed(md5, s) && CanPrepare(s, p, Sync) && s.procs[p].origin.CopyOf?
    requires Temp(p) in s.dir && Object(s.procs[p].origin.src) in s.dir
    ensures var w := s.procs[p];
            var t := FinishCopy(md5, s, p, sync);
            var now := s.heap[s.dir[Object(w.origin.src)]].etag;
            && t.heap == s.heap[w.ino := Inode(p, w.body, sync, Some(if now.Some? then now.value else ""))]
            && t.finished == s.finished
            && w.dest in t.dir && t.dir[w.dest] == w.ino
  {
    assert WriterOk(md5, s, p);
    var w := s.procs[p];
    var from := s.dir[Object(w.origin.src)];
    assert from != w.ino;
    var t := DoPrepare(md5, s, p, if sync then Sync else SkipSync);
    assert t.heap == s.heap[w.ino := s.heap[w.ino].(synced := sync)] && t.dir == s.dir;
    var u := DoPrepare(md5, t, p, Check);
    assert u.heap == t.heap && u.dir == t.dir && u.procs[p].stage.Ready?;
  }

  /** So a copy is whole when the source still has the etag that the copied version has. */
  lemma UnchangedEtagCopies(md5: Digest, s: System, p: Pid)
    requires Safe(md5, s) && CanPrepare(s, p, Sync) && s.procs[p].origin.CopyOf?
    requires Temp(p) in s.dir && Object(s.procs[p].origin.src) in s.dir && !IsLockKey(s.procs[p].origin.src)
    requires s.heap[s.dir[Object(s.procs[p].origin.src)]].etag == s.heap[s.procs[p].origin.from].etag
    ensures Complete(FinishCopy(md5, s, p, true), s.procs[p].ino)
  {
    assert ProcessOk(md5, s, p);
    CopyIsWholeExactly(md5, s, p, true);
  }

  // ---- Assemblies ----

  /**
   * Appending a listed part keeps pieces and digests in step exactly when the part that is opened has
   * the digest of the one whose etag was compared.
   */
  lemma AppendPartKeepsPairingExactly(md5: Digest, s: System, p: Pid)
    requires Safe(md5, s) && CanPrepare(s, p, AppendPart)
    requires Part(s.procs[p].origin.upload, s.procs[p].origin.list[|s.procs[p].stage.pieces|].number) in s.dir
    ensures var w := s.procs[p];
            var part := Part(w.origin.upload, w.origin.list[|w.stage.pieces|].number);
            GatheredOk(md5, s.finished, DoAppendPart(s, p).procs[p]) <==>
            md5(s.heap[s.dir[part]].data) == w.stage.digests[|w.stage.pieces|]
  {
    assert ProcessOk(md5, s, p);
    var w := s.procs[p];
    var path := Part(w.origin.upload, w.origin.list[|w.stage.pieces|].number);
    assert NameOk(md5, s, path);
    var piece := s.heap[s.dir[path]].data;
    var after := DoAppendPart(s, p).procs[p].stage;
    var n := |w.stage.pieces|;
    Sequences.FlattenSnoc(w.stage.pieces, piece);
    assert after.digests[..n + 1] == w.stage.digests[..n] + [w.stage.digests[n]];
    assert Digests(md5, after.pieces) == Digests(md5, w.stage.pieces) + [md5(piece)];
  }
}
