/**
 * If-Match writers with any mix of expected etags, together with If-None-Match writers.
 *
 * A swap replaces the version its writer expected as long as every writer locks the file
 * that is at the lock path at that moment. The source does not check this after `flock`.
 */
module GuardedSwap {
  import opened Types
  import opened Etags
  import opened CommitProtocol
  import opened CommitSafety
  import opened CompareAndSwap

  /** On `k` only conditional writers; nothing moves or deletes it. */
  predicate GuardedStep(a: Step, k: Key) {
    match a
    case Begins(_, Put(key, _, cond, _)) => if key == k then !cond.Plain? else Unrelated(k, key)
    case Begins(_, Copy(_, dst, _)) => Unrelated(k, dst)
    case Begins(_, Assemble(key, _, _, _)) => Unrelated(k, key)
    case Begins(_, PutPart(dest, _, _, _)) => Elsewhere(k, dest)
    case Names(Reap(path)) => path != Object(k) && path != LockPath(k)
    case Names(Delete(key)) => Unrelated(k, key)
    case Names(Move(src, dst)) => Unrelated(k, src) && Unrelated(k, dst)
    case _ => true
  }

  predicate IsFlock(s: System, a: Step, k: Key) {
    a.Commits? && a.commit.Flock? && Member(s, a.pid, k) && s.procs[a.pid].stage.LockOpen?
  }

  /** The inode is the one at the lock path of `k`. */
  predicate Current(s: System, k: Key, lock: Ino) {
    LockPath(k) in s.dir && s.dir[LockPath(k)] == lock
  }

  predicate InCriticalSection(stage: Stage) {
    stage.LockHeld? || stage.Verified? || stage.Renamed?
  }

  ghost predicate MemberGuarded(s: System, p: Pid, k: Key)
    requires Member(s, p, k)
  {
    var w := s.procs[p];
    && !w.cond.Plain? && w.origin.Upload?
    && (InCriticalSection(w.stage) ==> w.cond.IfMatch? && Current(s, k, w.stage.lock))
    && (w.stage.Verified? ==> CheckPasses(s, Object(k), w.cond.expected))
  }

  ghost predicate Guarded(s: System, k: Key) {
    forall p :: IsWriter(s, p) ==>
      if s.procs[p].dest == Object(k) then MemberGuarded(s, p, k) else Elsewhere(k, s.procs[p].dest)
  }

  /** Mutual exclusion from the flock to the unlinking of the lock file. */
  lemma OneInCriticalSection(md5: Digest, s: System, k: Key, p: Pid, q: Pid)
    requires WellFormed(md5, s) && Guarded(s, k) && Member(s, p, k) && Member(s, q, k)
    requires InCriticalSection(s.procs[p].stage) && InCriticalSection(s.procs[q].stage)
    ensures p == q
  {
    assert WriterOk(md5, s, p) && WriterOk(md5, s, q);
    assert MemberGuarded(s, p, k) && MemberGuarded(s, q, k);
  }

  /** What a step must leave alone for the writers that do not take it. */
  ghost predicate Spares(s: System, t: System, k: Key, q: Pid)
    requires Member(s, q, k)
  {
    var stage := s.procs[q].stage;
    && (InCriticalSection(stage) && Current(s, k, stage.lock) ==> Current(t, k, stage.lock))
    && (stage.Verified? && EtagAt(s, Object(k)).Some? ==> EtagAt(t, Object(k)) == EtagAt(s, Object(k)))
  }

  lemma SparedKeepsGuarded(md5: Digest, s: System, a: Step, k: Key)
    requires Guarded(s, k) && Can(s, a)
    requires var t := Do(md5, s, a);
             && (forall q :: Member(s, q, k) && Actor(a) != Some(q) ==> Spares(s, t, k, q))
             && (forall p :: IsWriter(t, p) && Actor(a) == Some(p) ==>
                   if t.procs[p].dest == Object(k) then MemberGuarded(t, p, k) else Elsewhere(k, t.procs[p].dest))
    ensures Guarded(Do(md5, s, a), k)
  {
    var t := Do(md5, s, a);
    StepFrame(md5, s, a);
    forall q | IsWriter(t, q) && Actor(a) != Some(q)
      ensures if t.procs[q].dest == Object(k) then MemberGuarded(t, q, k) else Elsewhere(k, t.procs[q].dest)
    {
      assert IsWriter(s, q);
    }
  }

  lemma GuardedMember(s: System, p: Pid, k: Key)
    requires Guarded(s, k) && IsWriter(s, p)
    ensures if s.procs[p].dest == Object(k) then MemberGuarded(s, p, k) else Elsewhere(k, s.procs[p].dest)
  {
  }

  lemma BeginKeepsGuarded(md5: Digest, s: System, p: Pid, act: BeginAct, k: Key)
    requires WellFormed(md5, s) && Guarded(s, k) && CanBegin(s, p, act) && GuardedStep(Begins(p, act), k)
    ensures Guarded(DoBegin(s, p, act), k)
  {
    SparedKeepsGuarded(md5, s, Begins(p, act), k);
  }

  lemma PrepareSpares(md5: Digest, s: System, p: Pid, act: PrepareAct, k: Key)
    requires WellFormed(md5, s) && CanPrepare(s, p, act)
    ensures forall q :: Member(s, q, k) && q != p ==> Spares(s, DoPrepare(md5, s, p, act), k, q)
  {
    PrepareShape(md5, s, p, act);
    if Object(k) in s.dir {
      PrepareChangesHiddenOnly(md5, s, p, act, s.dir[Object(k)]);
    }
  }

  lemma PrepareKeepsGuarded(md5: Digest, s: System, p: Pid, act: PrepareAct, k: Key)
    requires WellFormed(md5, s) && Guarded(s, k) && CanPrepare(s, p, act)
    ensures Guarded(DoPrepare(md5, s, p, act), k)
  {
    GuardedMember(s, p, k);
    PrepareShape(md5, s, p, act);
    PrepareSpares(md5, s, p, act, k);
    SparedKeepsGuarded(md5, s, Prepares(p, act), k);
  }

  lemma OtherCommitKeepsGuarded(md5: Digest, s: System, p: Pid, act: CommitAct, k: Key)
    requires WellFormed(md5, s) && Guarded(s, k) && CanCommit(s, p, act) && s.procs[p].dest != Object(k)
    ensures Guarded(DoCommit(s, p, act), k)
  {
    GuardedMember(s, p, k);
    if s.procs[p].dest.Object? && LockPath(s.procs[p].dest.key) == LockPath(k) {
      LockPathInjective(k, s.procs[p].dest.key);
    }
    CommitSpares(md5, s, p, act, k);
    SparedKeepsGuarded(md5, s, Commits(p, act), k);
  }

  /** A commit that neither renames onto `k` nor unlinks its lock file leaves both alone. */
  lemma CommitSpares(md5: Digest, s: System, p: Pid, act: CommitAct, k: Key)
    requires WellFormed(md5, s) && CanCommit(s, p, act)
    requires s.procs[p].dest.Object? ==> LockPath(s.procs[p].dest.key) != LockPath(k) || !act.UnlinkLock?
    requires s.procs[p].dest != LockPath(k) && (s.procs[p].dest.Object? ==> LockPath(s.procs[p].dest.key) != Object(k))
    requires s.procs[p].dest != Object(k) || !(act.Rename? || act.RenameNoReplace? || act.RenameLocked?)
    ensures forall q :: Member(s, q, k) && q != p ==> Spares(s, DoCommit(s, p, act), k, q)
  {
  }

  /** A member's publication onto `k`: nobody else is past the re-check. */
  lemma PublishKeepsGuarded(md5: Digest, s: System, p: Pid, act: CommitAct, k: Key)
    requires WellFormed(md5, s) && Guarded(s, k) && CanCommit(s, p, act) && s.procs[p].dest == Object(k)
    requires act.Rename? || act.RenameNoReplace? || act.RenameLocked?
    ensures Guarded(DoCommit(s, p, act), k)
  {
    GuardedMember(s, p, k);
    var t := DoCommit(s, p, act);
    forall q | Member(s, q, k) && q != p ensures Spares(s, t, k, q) {
      assert MemberGuarded(s, q, k);
      if s.procs[q].stage.Verified? && act.RenameLocked? {
        OneInCriticalSection(md5, s, k, p, q);
      }
    }
    SparedKeepsGuarded(md5, s, Commits(p, act), k);
  }

  lemma UnlinkKeepsGuarded(md5: Digest, s: System, p: Pid, k: Key)
    requires WellFormed(md5, s) && Guarded(s, k) && CanCommit(s, p, UnlinkLock) && s.procs[p].dest == Object(k)
    ensures Guarded(DoCommit(s, p, UnlinkLock), k)
  {
    GuardedMember(s, p, k);
    var t := DoCommit(s, p, UnlinkLock);
    forall q | Member(s, q, k) && q != p ensures Spares(s, t, k, q) {
      if InCriticalSection(s.procs[q].stage) {
        OneInCriticalSection(md5, s, k, p, q);
      }
    }
    SparedKeepsGuarded(md5, s, Commits(p, UnlinkLock), k);
  }

  /** The discipline survives a flock exactly when the file locked is the one at the lock path. */
  lemma FlockKeepsGuardedExactly(md5: Digest, s: System, p: Pid, k: Key)
    requires WellFormed(md5, s) && Guarded(s, k) && CanCommit(s, p, Flock) && s.procs[p].dest == Object(k)
    ensures Guarded(DoCommit(s, p, Flock), k) <==> Current(s, k, s.procs[p].stage.lock)
  {
    GuardedMember(s, p, k);
    assert WriterOk(md5, s, p);
    var t := DoCommit(s, p, Flock);
    if Current(s, k, s.procs[p].stage.lock) {
      CommitSpares(md5, s, p, Flock, k);
      SparedKeepsGuarded(md5, s, Commits(p, Flock), k);
    } else {
      assert Member(t, p, k) && !MemberGuarded(t, p, k);
    }
  }

  lemma CommitKeepsGuarded(md5: Digest, s: System, p: Pid, act: CommitAct, k: Key)
    requires WellFormed(md5, s) && Guarded(s, k) && CanCommit(s, p, act) && s.procs[p].dest == Object(k)
    requires act.Flock? ==> Current(s, k, s.procs[p].stage.lock)
    ensures Guarded(DoCommit(s, p, act), k)
  {
    GuardedMember(s, p, k);
    match act
    case Flock => FlockKeepsGuardedExactly(md5, s, p, k);
    case UnlinkLock => UnlinkKeepsGuarded(md5, s, p, k);
    case Rename(_) => PublishKeepsGuarded(md5, s, p, act, k);
    case RenameNoReplace => PublishKeepsGuarded(md5, s, p, act, k);
    case RenameLocked => PublishKeepsGuarded(md5, s, p, act, k);
    case _ =>
      CommitSpares(md5, s, p, act, k);
      SparedKeepsGuarded(md5, s, Commits(p, act), k);
  }

  lemma StepKeepsGuarded(md5: Digest, s: System, a: Step, k: Key)
    requires WellFormed(md5, s) && Guarded(s, k) && Can(s, a) && GuardedStep(a, k)
    requires IsFlock(s, a, k) ==> Current(s, k, s.procs[a.pid].stage.lock)
    ensures Guarded(Do(md5, s, a), k)
  {
    match a
    case Begins(p, act) => BeginKeepsGuarded(md5, s, p, act, k);
    case Prepares(p, act) => PrepareKeepsGuarded(md5, s, p, act, k);
    case Commits(p, act) =>
      if s.procs[p].dest == Object(k) {
        CommitKeepsGuarded(md5, s, p, act, k);
      } else {
        OtherCommitKeepsGuarded(md5, s, p, act, k);
      }
    case Reads(p, act) => SparedKeepsGuarded(md5, s, a, k);
    case Names(act) => SparedKeepsGuarded(md5, s, a, k);
    case Crash(_) =>
  }

  /** On `k` only conditional writers, and each locks the file at the lock path. */
  predicate GuardedRun(md5: Digest, s: System, steps: seq<Step>, k: Key)
    requires Legal(md5, s, steps)
    decreases |steps|
  {
    steps == []
    || (&& GuardedStep(steps[0], k)
        && (IsFlock(s, steps[0], k) ==> Current(s, k, s.procs[steps[0].pid].stage.lock))
        && GuardedRun(md5, Do(md5, s, steps[0]), steps[1..], k))
  }

  /** Every rename of an If-Match upload onto `k` replaces an object with the etag its writer expected. */
  predicate SwapsMatch(md5: Digest, s: System, steps: seq<Step>, k: Key)
    requires Legal(md5, s, steps)
    decreases |steps|
  {
    steps == []
    || (&& (IsSwap(s, steps[0], k) ==>
              s.procs[steps[0].pid].cond.IfMatch? && CheckPasses(s, Object(k), s.procs[steps[0].pid].cond.expected))
        && SwapsMatch(md5, Do(md5, s, steps[0]), steps[1..], k))
  }

  /**
   * Compare-and-swap for any mix of expectations: in every interleaving of conditional writers on a
   * key, with other keys' traffic, sweeps, errors and crashes, in which no writer locks a lock file
   * that has been removed, each swap replaces the version its writer expected.
   */
  lemma {:induction false} GuardedSwapsMatch(md5: Digest, s: System, steps: seq<Step>, k: Key)
    requires WellFormed(md5, s) && Guarded(s, k)
    requires Legal(md5, s, steps) && GuardedRun(md5, s, steps, k)
    ensures SwapsMatch(md5, s, steps, k)
    decreases |steps|
  {
    if steps == [] {
    } else {
      var a := steps[0];
      StepKeepsWellFormed(md5, s, a);
      StepKeepsGuarded(md5, s, a, k);
      GuardedSwapsMatch(md5, Do(md5, s, a), steps[1..], k);
      if IsSwap(s, a, k) {
        GuardedMember(s, a.pid, k);
      }
    }
  }
}
