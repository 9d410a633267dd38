/**
 * If-Match writes as compare-and-swap.
 *
 * Writers that all expect the same etag swap at most once, although the winner removes
 * the lock file while others may still be waiting on it.
 */
module CompareAndSwap {
  import opened Types
  import opened Etags
  import opened CommitProtocol
  import opened CommitSafety

  /** Neither key's object nor lock file touches the other's. */
  predicate Unrelated(k: Key, key: Key) {
    key != k && Object(key) != LockPath(k) && LockPath(key) != Object(k)
  }

  /** A destination that a writer may have without touching `k` or its lock file. */
  predicate Elsewhere(k: Key, dest: Path) {
    dest.Object? ==> Unrelated(k, dest.key)
  }

  /** The steps of a cohort run: on `k` only If-Match writers that expect `e0` and bring another etag. */
  predicate CohortStep(md5: Digest, a: Step, k: Key, e0: string) {
    match a
    case Begins(_, Put(key, body, cond, _)) =>
      if key == k then cond == IfMatch(e0) && EtagOf(md5, body) != e0 else Unrelated(k, key)
    case Begins(_, Copy(_, dst, _)) => Unrelated(k, dst)
    case Begins(_, Assemble(key, _, _, _)) => Unrelated(k, key)
    case Begins(_, PutPart(dest, _, _, _)) => Elsewhere(k, dest)
    case Names(Reap(path)) => path != Object(k) && path != LockPath(k)
    case Names(Delete(key)) => Unrelated(k, key)
    case Names(Move(src, dst)) => Unrelated(k, src) && Unrelated(k, dst)
    case _ => true
  }

  predicate CohortRun(md5: Digest, steps: seq<Step>, k: Key, e0: string) {
    forall i :: 0 <= i < |steps| ==> CohortStep(md5, steps[i], k, e0)
  }

  predicate Member(s: System, p: Pid, k: Key) {
    IsWriter(s, p) && s.procs[p].dest == Object(k)
  }

  predicate AtOld(s: System, k: Key, e0: string) {
    EtagAt(s, Object(k)) == Some(Some(e0))
  }

  ghost predicate MemberOk(md5: Digest, s: System, p: Pid, k: Key, e0: string)
    requires IsWriter(s, p)
  {
    var w := s.procs[p];
    if w.dest == Object(k) then w.cond == IfMatch(e0) && w.origin.Upload? && EtagOf(md5, w.body) != e0
    else Elsewhere(k, w.dest)
  }

  /** Before the swap: nobody has published, and every opened lock is the inode at the lock path. */
  ghost predicate BeforeSwap(s: System, k: Key) {
    forall p :: Member(s, p, k) ==>
      && !Published(s.procs[p].stage)
      && (HasLock(s.procs[p].stage) ==> LockPath(k) in s.dir && s.dir[LockPath(k)] == s.procs[p].stage.lock)
  }

  /** After the swap: nobody is past the re-check, and the publisher is unique. */
  ghost predicate AfterSwap(s: System, k: Key) {
    && (forall p :: Member(s, p, k) ==> !s.procs[p].stage.Verified?)
    && (forall p, q | Member(s, p, k) && Member(s, q, k) ::
          Published(s.procs[p].stage) && Published(s.procs[q].stage) ==> p == q)
  }

  ghost predicate CohortInv(md5: Digest, s: System, k: Key, e0: string) {
    && !Wildcard(e0)
    && Object(k) in s.dir
    && (forall p :: IsWriter(s, p) ==> MemberOk(md5, s, p, k, e0))
    && if AtOld(s, k, e0) then BeforeSwap(s, k) else AfterSwap(s, k)
  }

  /** `k` holds etag `e0` and no writer has begun on it. */
  ghost predicate CohortStart(s: System, k: Key, e0: string) {
    && !Wildcard(e0)
    && AtOld(s, k, e0)
    && (forall p :: IsWriter(s, p) ==> s.procs[p].dest != Object(k) && Elsewhere(k, s.procs[p].dest))
  }

  lemma LockPathIsAnother(k: Key)
    ensures LockPath(k) != Object(k)
  {
    assert |k + LOCK_SUFFIX| == |k| + 5;
  }

  lemma LockPathInjective(k: Key, key: Key)
    requires LockPath(k) == LockPath(key)
    ensures k == key
  {
    assert k == (k + LOCK_SUFFIX)[..|k|];
    assert |k| == |key|;
    assert key == (key + LOCK_SUFFIX)[..|key|];
  }

  /** Process `p` acts without renaming onto `k`; before the swap it also leaves the lock path alone. */
  ghost predicate Harmless(md5: Digest, s: System, t: System, p: Pid, k: Key, e0: string) {
    && Object(k) in t.dir
    && AtOld(t, k, e0) == AtOld(s, k, e0)
    && (AtOld(s, k, e0) && LockPath(k) in s.dir ==>
          LockPath(k) in t.dir && t.dir[LockPath(k)] == s.dir[LockPath(k)])
    && (forall q :: q in t.procs && q != p ==> q in s.procs && t.procs[q] == s.procs[q])
    && (IsWriter(t, p) ==> MemberOk(md5, t, p, k, e0))
    && (Member(t, p, k) ==>
          var stage := t.procs[p].stage;
          if AtOld(s, k, e0) then
            !Published(stage) && (HasLock(stage) ==> LockPath(k) in t.dir && t.dir[LockPath(k)] == stage.lock)
          else
            !stage.Verified? && (Published(stage) ==> Member(s, p, k) && Published(s.procs[p].stage)))
  }

  lemma HarmlessKeepsCohort(md5: Digest, s: System, t: System, p: Pid, k: Key, e0: string)
    requires CohortInv(md5, s, k, e0) && Harmless(md5, s, t, p, k, e0)
    ensures CohortInv(md5, t, k, e0)
  {
    forall q | IsWriter(t, q) ensures MemberOk(md5, t, q, k, e0) {
      assert q != p ==> MemberOk(md5, s, q, k, e0);
    }
  }

  lemma BeginKeepsCohort(md5: Digest, s: System, p: Pid, act: BeginAct, k: Key, e0: string)
    requires CohortInv(md5, s, k, e0) && CanBegin(s, p, act) && CohortStep(md5, Begins(p, act), k, e0)
    requires s.procs.Keys <= s.used && s.dir[Object(k)] in s.heap
    ensures CohortInv(md5, DoBegin(s, p, act), k, e0)
  {
    HarmlessKeepsCohort(md5, s, DoBegin(s, p, act), p, k, e0);
  }

  /** Only the process's body, tag and stage differ, and it is neither published nor near a lock. */
  ghost predicate Prepared(s: System, t: System, p: Pid)
    requires IsWriter(s, p)
  {
    && IsWriter(t, p) && t.procs == s.procs[p := t.procs[p]]
    && t.procs[p] == s.procs[p].(body := t.procs[p].body, tag := t.procs[p].tag, stage := t.procs[p].stage)
    && (s.procs[p].origin.Upload? ==> t.procs[p].body == s.procs[p].body)
    && !Published(t.procs[p].stage) && !HasLock(t.procs[p].stage)
  }

  lemma StreamShape(md5: Digest, s: System, p: Pid, act: PrepareAct)
    requires CanPrepare(s, p, act) && (act.Chunk? || act.EndStream? || act.Sync? || act.SkipSync?)
    ensures Prepared(s, DoPrepare(md5, s, p, act), p)
  {
  }

  lemma GatherShape(md5: Digest, s: System, p: Pid, act: PrepareAct)
    requires CanPrepare(s, p, act) && (act.CheckPart? || act.AppendPart?)
    ensures Prepared(s, DoPrepare(md5, s, p, act), p)
  {
  }

  lemma CheckShape(md5: Digest, s: System, p: Pid, act: PrepareAct)
    requires CanPrepare(s, p, act) && (act.Check? || act.Tag?)
    ensures Prepared(s, DoPrepare(md5, s, p, act), p)
  {
  }

  /** Preparing changes no visible name and ends neither published nor near a lock. */
  lemma PrepareShape(md5: Digest, s: System, p: Pid, act: PrepareAct)
    requires CanPrepare(s, p, act)
    ensures Prepared(s, DoPrepare(md5, s, p, act), p)
    ensures DoPrepare(md5, s, p, act).dir in {s.dir, s.dir - {Temp(p)}}
  {
    PrepareKeepsDir(md5, s, p, act);
    if act.Check? || act.Tag? {
      CheckShape(md5, s, p, act);
    } else if act.CheckPart? || act.AppendPart? {
      GatherShape(md5, s, p, act);
    } else {
      StreamShape(md5, s, p, act);
    }
  }

  lemma PrepareKeepsCohort(md5: Digest, s: System, p: Pid, act: PrepareAct, k: Key, e0: string)
    requires CohortInv(md5, s, k, e0) && CanPrepare(s, p, act)
    requires EtagAt(DoPrepare(md5, s, p, act), Object(k)) == EtagAt(s, Object(k))
    ensures CohortInv(md5, DoPrepare(md5, s, p, act), k, e0)
  {
    assert MemberOk(md5, s, p, k, e0);
    PrepareShape(md5, s, p, act);
    HarmlessKeepsCohort(md5, s, DoPrepare(md5, s, p, act), p, k, e0);
  }

  /** A commit step on another key. */
  lemma OtherCommitKeepsCohort(md5: Digest, s: System, p: Pid, act: CommitAct, k: Key, e0: string)
    requires CohortInv(md5, s, k, e0) && CanCommit(s, p, act) && s.procs[p].dest != Object(k)
    requires s.dir[Object(k)] in s.heap
    ensures CohortInv(md5, DoCommit(s, p, act), k, e0)
  {
    assert MemberOk(md5, s, p, k, e0);
    if s.procs[p].dest.Object? && LockPath(s.procs[p].dest.key) == LockPath(k) {
      LockPathInjective(k, s.procs[p].dest.key);
    }
    OtherCommitKeepsNames(s, p, act, k);
    CommitShape(s, p, act);
    HarmlessKeepsCohort(md5, s, DoCommit(s, p, act), p, k, e0);
  }

  /** A commit on an unrelated key leaves this key's object and lock file alone. */
  lemma OtherCommitKeepsNames(s: System, p: Pid, act: CommitAct, k: Key)
    requires CanCommit(s, p, act) && s.procs[p].dest != Object(k) && Elsewhere(k, s.procs[p].dest)
    requires s.procs[p].dest.Object? ==> LockPath(s.procs[p].dest.key) != LockPath(k)
    ensures var t := DoCommit(s, p, act);
            && (Object(k) in s.dir && s.dir[Object(k)] in s.heap ==>
                  Object(k) in t.dir && EtagAt(t, Object(k)) == EtagAt(s, Object(k)))
            && (LockPath(k) in s.dir ==> LockPath(k) in t.dir && t.dir[LockPath(k)] == s.dir[LockPath(k)])
  {
  }

  lemma MemberLockStepKeepsCohort(md5: Digest, s: System, p: Pid, act: CommitAct, k: Key, e0: string)
    requires CohortInv(md5, s, k, e0) && CanCommit(s, p, act) && s.procs[p].dest == Object(k)
    requires act.OpenLock? || act.Flock? || act.Recheck? || act.UnlinkLock? || act.Release?
    requires s.dir[Object(k)] in s.heap
    ensures CohortInv(md5, DoCommit(s, p, act), k, e0)
  {
    assert MemberOk(md5, s, p, k, e0);
    HarmlessKeepsCohort(md5, s, DoCommit(s, p, act), p, k, e0);
  }

  lemma MemberFailKeepsCohort(md5: Digest, s: System, p: Pid, cleaned: bool, k: Key, e0: string)
    requires CohortInv(md5, s, k, e0) && Member(s, p, k)
    ensures CohortInv(md5, Fail(s, p, cleaned), k, e0)
  {
    assert MemberOk(md5, s, p, k, e0);
    HarmlessKeepsCohort(md5, s, Fail(s, p, cleaned), p, k, e0);
  }

  /** Before the swap at most one member can be past the re-check: all wait on one inode. */
  lemma OneVerified(md5: Digest, s: System, k: Key, p: Pid, q: Pid)
    requires BeforeSwap(s, k) && Member(s, p, k) && Member(s, q, k)
    requires WriterOk(md5, s, p) && WriterOk(md5, s, q)
    requires s.procs[p].stage.Verified? && s.procs[q].stage.Verified?
    ensures p == q
  {
  }

  /** The swap itself. */
  lemma SwapKeepsCohort(md5: Digest, s: System, p: Pid, k: Key, e0: string)
    requires WellFormed(md5, s) && CohortInv(md5, s, k, e0)
    requires CanCommit(s, p, RenameLocked) && s.procs[p].dest == Object(k) && Temp(p) in s.dir
    ensures CohortInv(md5, DoCommit(s, p, RenameLocked), k, e0)
    ensures !AtOld(DoCommit(s, p, RenameLocked), k, e0)
  {
    var t := DoCommit(s, p, RenameLocked);
    assert WriterOk(md5, s, p) && MemberOk(md5, s, p, k, e0);
    forall q | IsWriter(t, q) ensures MemberOk(md5, t, q, k, e0) {
      assert MemberOk(md5, s, q, k, e0);
    }
    forall q | Member(t, q, k) && q != p ensures !t.procs[q].stage.Verified? && !Published(t.procs[q].stage) {
      assert WriterOk(md5, s, q);
      if s.procs[q].stage.Verified? {
        OneVerified(md5, s, k, p, q);
      }
    }
  }

  lemma MemberCommitKeepsCohort(md5: Digest, s: System, p: Pid, act: CommitAct, k: Key, e0: string)
    requires WellFormed(md5, s) && CohortInv(md5, s, k, e0) && CanCommit(s, p, act) && s.procs[p].dest == Object(k)
    ensures CohortInv(md5, DoCommit(s, p, act), k, e0)
  {
    assert MemberOk(md5, s, p, k, e0);
    match act
    case RenameLocked =>
      if Temp(p) in s.dir {
        SwapKeepsCohort(md5, s, p, k, e0);
      } else {
        MemberFailKeepsCohort(md5, s, p, false, k, e0);
      }
    case Abort(cleaned) => MemberFailKeepsCohort(md5, s, p, cleaned, k, e0);
    case _ => MemberLockStepKeepsCohort(md5, s, p, act, k, e0);
  }

  lemma NameKeepsCohort(md5: Digest, s: System, act: NameAct, k: Key, e0: string)
    requires CohortInv(md5, s, k, e0) && CanName(s, act) && CohortStep(md5, Names(act), k, e0)
    ensures CohortInv(md5, DoName(s, act), k, e0)
  {
    forall q | IsWriter(s, q) ensures MemberOk(md5, DoName(s, act), q, k, e0) {
      assert MemberOk(md5, s, q, k, e0);
    }
  }

  lemma ReadKeepsCohort(md5: Digest, s: System, p: Pid, act: ReadAct, k: Key, e0: string)
    requires CohortInv(md5, s, k, e0) && CanRead(s, p)
    ensures CohortInv(md5, DoRead(s, p, act), k, e0)
  {
    HarmlessKeepsCohort(md5, s, DoRead(s, p, act), p, k, e0);
  }

  lemma StepKeepsCohort(md5: Digest, s: System, a: Step, k: Key, e0: string)
    requires WellFormed(md5, s) && CohortInv(md5, s, k, e0) && Can(s, a) && CohortStep(md5, a, k, e0)
    ensures CohortInv(md5, Do(md5, s, a), k, e0)
  {
    match a
    case Begins(p, act) => BeginKeepsCohort(md5, s, p, act, k, e0);
    case Prepares(p, act) =>
      PrepareChangesHiddenOnly(md5, s, p, act, s.dir[Object(k)]);
      PrepareKeepsCohort(md5, s, p, act, k, e0);
    case Commits(p, act) =>
      if s.procs[p].dest == Object(k) {
        MemberCommitKeepsCohort(md5, s, p, act, k, e0);
      } else {
        OtherCommitKeepsCohort(md5, s, p, act, k, e0);
      }
    case Reads(p, act) => ReadKeepsCohort(md5, s, p, act, k, e0);
    case Names(act) => NameKeepsCohort(md5, s, act, k, e0);
    case Crash(_) =>
  }

  // ---- Over whole runs ----

  predicate IsSwap(s: System, a: Step, k: Key) {
    a.Commits? && a.commit.RenameLocked? && Member(s, a.pid, k) && Temp(a.pid) in s.dir
  }

  /** How often a run renames an If-Match upload onto `k`. */
  function Swaps(md5: Digest, s: System, steps: seq<Step>, k: Key): nat
    requires Legal(md5, s, steps)
    decreases |steps|
  {
    if steps == [] then 0
    else (if IsSwap(s, steps[0], k) then 1 else 0) + Swaps(md5, Do(md5, s, steps[0]), steps[1..], k)
  }

  lemma CohortStartInv(md5: Digest, s: System, k: Key, e0: string)
    requires CohortStart(s, k, e0)
    ensures CohortInv(md5, s, k, e0)
  {
  }

  lemma SwapEndsOld(md5: Digest, s: System, a: Step, k: Key, e0: string)
    requires WellFormed(md5, s) && CohortInv(md5, s, k, e0) && Can(s, a) && IsSwap(s, a, k)
    ensures AtOld(s, k, e0) && !AtOld(Do(md5, s, a), k, e0)
  {
    SwapKeepsCohort(md5, s, a.pid, k, e0);
  }

  /** Nothing in a cohort run brings the old etag back. */
  lemma OldStaysGone(md5: Digest, s: System, a: Step, k: Key, e0: string)
    requires WellFormed(md5, s) && CohortInv(md5, s, k, e0) && Can(s, a) && CohortStep(md5, a, k, e0)
    requires !AtOld(s, k, e0)
    ensures !AtOld(Do(md5, s, a), k, e0)
  {
    match a
    case Prepares(p, act) =>
      PrepareChangesHiddenOnly(md5, s, p, act, s.dir[Object(k)]);
      PrepareShape(md5, s, p, act);
    case Commits(p, act) => CommitKeepsOldGone(md5, s, p, act, k, e0);
    case _ =>
  }

  lemma CommitKeepsOldGone(md5: Digest, s: System, p: Pid, act: CommitAct, k: Key, e0: string)
    requires WellFormed(md5, s) && CohortInv(md5, s, k, e0) && CanCommit(s, p, act) && !AtOld(s, k, e0)
    ensures !AtOld(DoCommit(s, p, act), k, e0)
  {
    assert MemberOk(md5, s, p, k, e0);
    assert WriterOk(md5, s, p);
  }

  lemma {:induction false} SwapsBounded(md5: Digest, s: System, steps: seq<Step>, k: Key, e0: string)
    requires WellFormed(md5, s) && CohortInv(md5, s, k, e0)
    requires Legal(md5, s, steps) && CohortRun(md5, steps, k, e0)
    ensures Swaps(md5, s, steps, k) <= if AtOld(s, k, e0) then 1 else 0
    decreases |steps|
  {
    if steps == [] {
    } else {
      var a := steps[0];
      assert CohortStep(md5, a, k, e0);
      assert CohortRun(md5, steps[1..], k, e0);
      StepKeepsWellFormed(md5, s, a);
      StepKeepsCohort(md5, s, a, k, e0);
      SwapsBounded(md5, Do(md5, s, a), steps[1..], k, e0);
      if IsSwap(s, a, k) {
        SwapEndsOld(md5, s, a, k, e0);
      } else if !AtOld(s, k, e0) {
        OldStaysGone(md5, s, a, k, e0);
      }
    }
  }

  /**
   * Compare-and-swap: in every interleaving of any number of If-Match writers that expect `e0`
   * on a key holding `e0`, with other keys' traffic, sweeps, errors and crashes, at most one commits.
   */
  lemma AtMostOneSwap(md5: Digest, s: System, steps: seq<Step>, k: Key, e0: string)
    requires WellFormed(md5, s) && CohortStart(s, k, e0)
    requires Legal(md5, s, steps) && CohortRun(md5, steps, k, e0)
    ensures Swaps(md5, s, steps, k) <= 1
  {
    CohortStartInv(md5, s, k, e0);
    SwapsBounded(md5, s, steps, k, e0);
  }

  // ---- When every writer runs to its end ----

  /** No I/O error, no sweep of a live temp file, no crash. */
  predicate FaultFree(a: Step) {
    match a
    case Commits(_, Abort(_)) => false
    case Names(Sweep(_)) => false
    case Names(Reap(path)) => !path.Temp?
    case Crash(_) => false
    case _ => true
  }

  predicate Won(stage: Stage) {
    stage.Renamed? || stage.Unlinked? || stage.Succeeded?
  }

  ghost predicate Winner(s: System, p: Pid, k: Key) {
    Member(s, p, k) && Won(s.procs[p].stage)
  }

  ghost predicate MemberLive(s: System, p: Pid, k: Key, e0: string)
    requires Member(s, p, k)
  {
    && (Unpublished(s.procs[p].stage) ==> Temp(p) in s.dir)
    && (AtOld(s, k, e0) ==> !s.procs[p].stage.Failed?)
  }

  ghost predicate CohortLive(s: System, k: Key, e0: string) {
    && (forall p :: Member(s, p, k) ==> MemberLive(s, p, k, e0))
    && (!AtOld(s, k, e0) ==> exists p :: Winner(s, p, k))
  }

  lemma PrepareKeepsLive(md5: Digest, s: System, p: Pid, act: PrepareAct, k: Key, e0: string)
    requires CohortInv(md5, s, k, e0) && CohortLive(s, k, e0) && CanPrepare(s, p, act)
    requires EtagAt(DoPrepare(md5, s, p, act), Object(k)) == EtagAt(s, Object(k))
    ensures CohortLive(DoPrepare(md5, s, p, act), k, e0)
  {
    var t := DoPrepare(md5, s, p, act);
    PrepareShape(md5, s, p, act);
    assert MemberOk(md5, s, p, k, e0);
    forall q | Member(t, q, k) ensures MemberLive(t, q, k, e0) {
      assert MemberLive(s, q, k, e0);
    }
    if !AtOld(t, k, e0) {
      var q :| Winner(s, q, k);
      assert Winner(t, q, k);
    }
  }

  lemma CommitShape(s: System, p: Pid, act: CommitAct)
    requires CanCommit(s, p, act)
    ensures var t := DoCommit(s, p, act);
            && IsWriter(t, p) && t.procs == s.procs[p := t.procs[p]]
            && t.procs[p] == s.procs[p].(stage := t.procs[p].stage)
            && (forall q :: q != p && Temp(q) in s.dir ==> Temp(q) in t.dir)
            && (Won(s.procs[p].stage) && !act.Abort? ==> Won(t.procs[p].stage))
  {
  }

  lemma OldEndsBySwap(md5: Digest, s: System, p: Pid, act: CommitAct, k: Key, e0: string)
    requires WellFormed(md5, s) && CohortInv(md5, s, k, e0) && CanCommit(s, p, act)
    requires AtOld(s, k, e0) && !AtOld(DoCommit(s, p, act), k, e0)
    ensures Member(s, p, k) && DoCommit(s, p, act).procs[p].stage.Renamed?
  {
    assert MemberOk(md5, s, p, k, e0);
  }

  lemma CommitKeepsMemberLive(md5: Digest, s: System, p: Pid, act: CommitAct, k: Key, e0: string)
    requires CohortInv(md5, s, k, e0) && CanCommit(s, p, act) && !act.Abort?
    requires Member(s, p, k) && MemberLive(s, p, k, e0)
    requires AtOld(DoCommit(s, p, act), k, e0) ==> AtOld(s, k, e0)
    ensures MemberLive(DoCommit(s, p, act), p, k, e0)
  {
    assert MemberOk(md5, s, p, k, e0);
  }

  lemma CommitKeepsLive(md5: Digest, s: System, p: Pid, act: CommitAct, k: Key, e0: string)
    requires WellFormed(md5, s) && CohortInv(md5, s, k, e0) && CohortLive(s, k, e0)
    requires CanCommit(s, p, act) && !act.Abort?
    ensures CohortLive(DoCommit(s, p, act), k, e0)
  {
    var t := DoCommit(s, p, act);
    CommitShape(s, p, act);
    if !AtOld(s, k, e0) {
      CommitKeepsOldGone(md5, s, p, act, k, e0);
      var q :| Winner(s, q, k);
      assert Winner(t, q, k);
    } else if !AtOld(t, k, e0) {
      OldEndsBySwap(md5, s, p, act, k, e0);
      assert Winner(t, p, k);
    }
    forall q | Member(t, q, k) ensures MemberLive(t, q, k, e0) {
      assert MemberLive(s, q, k, e0);
      if q == p {
        CommitKeepsMemberLive(md5, s, p, act, k, e0);
      }
    }
  }

  lemma BeginKeepsLive(md5: Digest, s: System, p: Pid, act: BeginAct, k: Key, e0: string)
    requires WellFormed(md5, s) && CohortInv(md5, s, k, e0) && CohortLive(s, k, e0)
    requires CanBegin(s, p, act)
    ensures CohortLive(DoBegin(s, p, act), k, e0)
  {
    var t := DoBegin(s, p, act);
    forall q | Member(t, q, k) ensures MemberLive(t, q, k, e0) {
      assert q != p ==> MemberLive(s, q, k, e0);
    }
    if !AtOld(t, k, e0) {
      var q :| Winner(s, q, k);
      assert Winner(t, q, k);
    }
  }

  /** A step of the file system or of a reader. */
  lemma OutsideKeepsLive(md5: Digest, s: System, a: Step, k: Key, e0: string)
    requires WellFormed(md5, s) && CohortInv(md5, s, k, e0) && CohortLive(s, k, e0) && Can(s, a)
    requires CohortStep(md5, a, k, e0) && FaultFree(a) && (a.Reads? || a.Names?)
    ensures CohortLive(Do(md5, s, a), k, e0)
  {
    var t := Do(md5, s, a);
    forall q | Member(t, q, k) ensures MemberLive(t, q, k, e0) {
      assert MemberLive(s, q, k, e0);
    }
    if !AtOld(t, k, e0) {
      var q :| Winner(s, q, k);
      assert Winner(t, q, k);
    }
  }

  lemma StepKeepsLive(md5: Digest, s: System, a: Step, k: Key, e0: string)
    requires WellFormed(md5, s) && CohortInv(md5, s, k, e0) && CohortLive(s, k, e0) && Can(s, a)
    requires CohortStep(md5, a, k, e0) && FaultFree(a)
    ensures CohortLive(Do(md5, s, a), k, e0)
  {
    match a
    case Begins(p, act) => BeginKeepsLive(md5, s, p, act, k, e0);
    case Prepares(p, act) =>
      PrepareChangesHiddenOnly(md5, s, p, act, s.dir[Object(k)]);
      PrepareShape(md5, s, p, act);
      PrepareKeepsLive(md5, s, p, act, k, e0);
    case Commits(p, act) => CommitKeepsLive(md5, s, p, act, k, e0);
    case Reads(_, _) => OutsideKeepsLive(md5, s, a, k, e0);
    case Names(_) => OutsideKeepsLive(md5, s, a, k, e0);
  }

  lemma {:induction false} RunKeepsCohort(md5: Digest, s: System, steps: seq<Step>, k: Key, e0: string)
    requires WellFormed(md5, s) && CohortInv(md5, s, k, e0) && CohortLive(s, k, e0)
    requires Legal(md5, s, steps) && CohortRun(md5, steps, k, e0)
    requires forall i :: 0 <= i < |steps| ==> FaultFree(steps[i])
    ensures CohortInv(md5, Run(md5, s, steps), k, e0) && CohortLive(Run(md5, s, steps), k, e0)
    decreases |steps|
  {
    if steps == [] {
    } else {
      var a := steps[0];
      assert CohortStep(md5, a, k, e0) && FaultFree(a);
      assert CohortRun(md5, steps[1..], k, e0);
      StepKeepsWellFormed(md5, s, a);
      StepKeepsCohort(md5, s, a, k, e0);
      StepKeepsLive(md5, s, a, k, e0);
      RunKeepsCohort(md5, Do(md5, s, a), steps[1..], k, e0);
    }
  }

  /**
   * If no fault occurs and every writer of the cohort has returned, exactly one of them
   * succeeded; all the others were rejected.
   */
  lemma ExactlyOneSucceeds(md5: Digest, s: System, steps: seq<Step>, k: Key, e0: string)
    requires WellFormed(md5, s) && CohortStart(s, k, e0)
    requires Legal(md5, s, steps) && CohortRun(md5, steps, k, e0)
    requires forall i :: 0 <= i < |steps| ==> FaultFree(steps[i])
    requires exists p :: Member(Run(md5, s, steps), p, k)
    requires forall p :: Member(Run(md5, s, steps), p, k) ==>
               Run(md5, s, steps).procs[p].stage in {Succeeded, Failed(false), Failed(true)}
    ensures exists p :: Member(Run(md5, s, steps), p, k) && Run(md5, s, steps).procs[p].stage.Succeeded?
    ensures forall p, q | Member(Run(md5, s, steps), p, k) && Member(Run(md5, s, steps), q, k) ::
              Run(md5, s, steps).procs[p].stage.Succeeded? && Run(md5, s, steps).procs[q].stage.Succeeded? ==> p == q
  {
    CohortStartInv(md5, s, k, e0);
    RunKeepsCohort(md5, s, steps, k, e0);
    var t := Run(md5, s, steps);
    var p :| Member(t, p, k);
    assert MemberLive(t, p, k, e0);
    if !AtOld(t, k, e0) {
      var q :| Winner(t, q, k);
    }
  }
}
