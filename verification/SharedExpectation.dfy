/**
 * A condition that clients can keep: If-Match writers of one key that overlap expect the same
 * version, and none brings the version it expects. Then every swap is compare-and-swap, over any
 * number of rounds, although the winner of each round unlinks the lock file.
 */
module SharedExpectation {
  import opened Types
  import opened Etags
  import opened CommitProtocol
  import opened CommitSafety
  import opened CompareAndSwap
  import opened GuardedSwap

  /** An If-Match writer on `k` that has not returned. */
  predicate Swapper(s: System, p: Pid, k: Key) {
    Member(s, p, k) && s.procs[p].cond.IfMatch? && !s.procs[p].stage.Succeeded? && !s.procs[p].stage.Failed?
  }

  /** Only conditional writers on `k`; a new If-Match writer shares its expectation with those running. */
  ghost predicate PoliteStep(md5: Digest, s: System, a: Step, k: Key) {
    && GuardedStep(a, k)
    && match a
       case Begins(_, Put(key, body, IfMatch(e), _)) =>
         key == k ==> EtagOf(md5, body) != e && forall q :: Swapper(s, q, k) ==> s.procs[q].cond.expected == e
       case _ => true
  }

  predicate PastCheck(stage: Stage) {
    stage.Ready? || stage.Tagged? || HasLock(stage)
  }

  /** While the expected etag stands, a writer's lock is the current one and it has not published. */
  ghost predicate SwapperOk(s: System, p: Pid, k: Key)
    requires Swapper(s, p, k)
  {
    var w := s.procs[p];
    && (PastCheck(w.stage) ==> Object(k) in s.dir)
    && (!Wildcard(w.cond.expected) && AtOld(s, k, w.cond.expected) ==>
          !w.stage.Renamed? && !w.stage.Unlinked? && (HasLock(w.stage) ==> Current(s, k, w.stage.lock)))
    && (w.stage.Verified? ==> CheckPasses(s, Object(k), w.cond.expected))
  }

  ghost predicate MemberPolite(md5: Digest, s: System, p: Pid, k: Key)
    requires Member(s, p, k)
  {
    var w := s.procs[p];
    && !w.cond.Plain? && w.origin.Upload?
    && (w.cond.IfMatch? ==> EtagOf(md5, w.body) != w.cond.expected)
    && (Swapper(s, p, k) ==> SwapperOk(s, p, k))
  }

  ghost predicate WriterPolite(md5: Digest, s: System, p: Pid, k: Key)
    requires IsWriter(s, p)
  {
    if s.procs[p].dest == Object(k) then MemberPolite(md5, s, p, k) else Elsewhere(k, s.procs[p].dest)
  }

  ghost predicate Polite(md5: Digest, s: System, k: Key) {
    && (forall p :: IsWriter(s, p) ==> WriterPolite(md5, s, p, k))
    && (forall p, q | Swapper(s, p, k) && Swapper(s, q, k) :: s.procs[p].cond.expected == s.procs[q].cond.expected)
  }

  /** The step leaves the key's object and lock file alone. */
  ghost predicate Calm(s: System, t: System, k: Key) {
    && (Object(k) in s.dir ==> Object(k) in t.dir && EtagAt(t, Object(k)) == EtagAt(s, Object(k)))
    && (LockPath(k) in s.dir ==> LockPath(k) in t.dir && t.dir[LockPath(k)] == s.dir[LockPath(k)])
  }

  /** What the step must leave to the writers that do not take it. */
  ghost predicate Leaves(s: System, t: System, k: Key, q: Pid)
    requires Swapper(s, q, k)
  {
    var w := s.procs[q];
    && (PastCheck(w.stage) && Object(k) in s.dir ==> Object(k) in t.dir)
    && (!Wildcard(w.cond.expected) && AtOld(t, k, w.cond.expected) ==>
          || Calm(s, t, k)
          || (!HasLock(w.stage)))
    && (w.stage.Verified? ==> CheckPasses(t, Object(k), w.cond.expected))
  }

  lemma CalmLeaves(s: System, t: System, k: Key, q: Pid)
    requires Swapper(s, q, k) && SwapperOk(s, q, k) && Calm(s, t, k)
    ensures Leaves(s, t, k, q)
  {
  }

  /** Enough for one step of `actor` to keep the invariant. */
  lemma LeavingKeepsPolite(md5: Digest, s: System, a: Step, k: Key)
    requires Polite(md5, s, k) && Can(s, a) && PoliteStep(md5, s, a, k)
    requires var t := Do(md5, s, a);
             && (forall q :: Swapper(s, q, k) && Actor(a) != Some(q) ==> Leaves(s, t, k, q))
             && (forall p :: IsWriter(t, p) && Actor(a) == Some(p) ==>
                   && WriterPolite(md5, t, p, k)
                   && (Swapper(t, p, k) ==> (Swapper(s, p, k) && s.procs[p].cond == t.procs[p].cond) || a.Begins?))
    requires a.Begins? && IsWriter(Do(md5, s, a), a.pid) ==>
               Do(md5, s, a).dir == s.dir[Temp(a.pid) := Do(md5, s, a).dir[Temp(a.pid)]]
               && (Swapper(Do(md5, s, a), a.pid, k) ==>
                     forall q :: Swapper(s, q, k) ==>
                       s.procs[q].cond.expected == Do(md5, s, a).procs[a.pid].cond.expected)
    ensures Polite(md5, Do(md5, s, a), k)
  {
    var t := Do(md5, s, a);
    StepFrame(md5, s, a);
    forall q | IsWriter(t, q) && Actor(a) != Some(q) ensures WriterPolite(md5, t, q, k) {
      assert WriterPolite(md5, s, q, k);
    }
  }

  lemma BeginIsCalm(s: System, p: Pid, act: BeginAct, k: Key)
    requires CanBegin(s, p, act) && (Object(k) in s.dir ==> s.dir[Object(k)] in s.heap)
    ensures Calm(s, DoBegin(s, p, act), k)
  {
  }

  lemma BeginIsPolite(md5: Digest, s: System, p: Pid, act: BeginAct, k: Key)
    requires WellFormed(md5, s) && Polite(md5, s, k) && CanBegin(s, p, act)
    requires PoliteStep(md5, s, Begins(p, act), k)
    ensures Polite(md5, DoBegin(s, p, act), k)
  {
    var t := DoBegin(s, p, act);
    BeginFrame(s, p, act);
    BeginIsCalm(s, p, act, k);
    forall q | Swapper(s, q, k) ensures Leaves(s, t, k, q) {
      assert WriterPolite(md5, s, q, k);
      CalmLeaves(s, t, k, q);
    }
    LeavingKeepsPolite(md5, s, Begins(p, act), k);
  }

  lemma PrepareIsCalm(md5: Digest, s: System, p: Pid, act: PrepareAct, k: Key)
    requires WellFormed(md5, s) && CanPrepare(s, p, act)
    ensures Calm(s, DoPrepare(md5, s, p, act), k)
  {
    PrepareShape(md5, s, p, act);
    if Object(k) in s.dir {
      PrepareChangesHiddenOnly(md5, s, p, act, s.dir[Object(k)]);
    }
  }

  lemma PreparedIsPolite(md5: Digest, s: System, p: Pid, act: PrepareAct, k: Key)
    requires WellFormed(md5, s) && Polite(md5, s, k) && CanPrepare(s, p, act)
    ensures WriterPolite(md5, DoPrepare(md5, s, p, act), p, k)
  {
    assert WriterPolite(md5, s, p, k);
    PrepareShape(md5, s, p, act);
    PrepareIsCalm(md5, s, p, act, k);
  }

  lemma PrepareIsPolite(md5: Digest, s: System, p: Pid, act: PrepareAct, k: Key)
    requires WellFormed(md5, s) && Polite(md5, s, k) && CanPrepare(s, p, act)
    ensures Polite(md5, DoPrepare(md5, s, p, act), k)
  {
    var t := DoPrepare(md5, s, p, act);
    PrepareShape(md5, s, p, act);
    PrepareIsCalm(md5, s, p, act, k);
    PreparedIsPolite(md5, s, p, act, k);
    forall q | Swapper(s, q, k) && q != p ensures Leaves(s, t, k, q) {
      assert WriterPolite(md5, s, q, k);
      CalmLeaves(s, t, k, q);
    }
    LeavingKeepsPolite(md5, s, Prepares(p, act), k);
  }

  predicate Publishes(act: CommitAct) {
    act.Rename? || act.RenameNoReplace? || act.RenameLocked?
  }

  /** A commit step that neither renames onto `k` nor unlinks its lock file. */
  lemma QuietCommitIsCalm(md5: Digest, s: System, p: Pid, act: CommitAct, k: Key)
    requires WellFormed(md5, s) && CanCommit(s, p, act)
    requires s.procs[p].dest != Object(k) ==> Elsewhere(k, s.procs[p].dest)
    requires s.procs[p].dest == Object(k) ==> !Publishes(act) && !act.UnlinkLock?
    ensures Calm(s, DoCommit(s, p, act), k)
  {
    if s.procs[p].dest != Object(k) {
      if s.procs[p].dest.Object? && LockPath(s.procs[p].dest.key) == LockPath(k) {
        LockPathInjective(k, s.procs[p].dest.key);
      }
      OtherCommitKeepsNames(s, p, act, k);
    } else {
      LockPathIsAnother(k);
      CommitChangesNoInode(s, p, act);
      QuietMemberKeepsNames(s, p, act, k);
    }
  }

  lemma QuietMemberKeepsNames(s: System, p: Pid, act: CommitAct, k: Key)
    requires CanCommit(s, p, act) && Member(s, p, k) && !Publishes(act) && !act.UnlinkLock?
    requires LockPath(k) != Object(k)
    ensures var t := DoCommit(s, p, act);
            && (Object(k) in s.dir ==> Object(k) in t.dir && t.dir[Object(k)] == s.dir[Object(k)])
            && (LockPath(k) in s.dir ==> LockPath(k) in t.dir && t.dir[LockPath(k)] == s.dir[LockPath(k)])
  {
  }

  lemma QuietCommitIsPolite(md5: Digest, s: System, p: Pid, act: CommitAct, k: Key)
    requires WellFormed(md5, s) && Polite(md5, s, k) && CanCommit(s, p, act)
    requires s.procs[p].dest == Object(k) ==> !Publishes(act) && !act.UnlinkLock?
    ensures Polite(md5, DoCommit(s, p, act), k)
  {
    var t := DoCommit(s, p, act);
    assert WriterPolite(md5, s, p, k) && WriterOk(md5, s, p);
    QuietCommitIsCalm(md5, s, p, act, k);
    CommitShape(s, p, act);
    CommitEnds(s, p, act);
    forall q | Swapper(s, q, k) && q != p ensures Leaves(s, t, k, q) {
      assert WriterPolite(md5, s, q, k);
      CalmLeaves(s, t, k, q);
    }
    QuietOwnStep(md5, s, p, act, k);
    LeavingKeepsPolite(md5, s, Commits(p, act), k);
  }

  /** A writer that has returned takes no commit step. */
  lemma CommitEnds(s: System, p: Pid, act: CommitAct)
    requires CanCommit(s, p, act)
    ensures !s.procs[p].stage.Succeeded? && !s.procs[p].stage.Failed?
  {
  }

  lemma QuietOwnStep(md5: Digest, s: System, p: Pid, act: CommitAct, k: Key)
    requires WellFormed(md5, s) && CanCommit(s, p, act) && WriterPolite(md5, s, p, k)
    requires s.procs[p].dest == Object(k) ==> !Publishes(act) && !act.UnlinkLock?
    requires Calm(s, DoCommit(s, p, act), k)
    ensures WriterPolite(md5, DoCommit(s, p, act), p, k)
  {
    assert WriterOk(md5, s, p);
  }

  /** While the expected etag stands, two verified writers are one. */
  lemma OneVerifiedSwapper(md5: Digest, s: System, p: Pid, q: Pid, k: Key)
    requires WellFormed(md5, s) && Polite(md5, s, k) && Swapper(s, p, k) && Swapper(s, q, k)
    requires s.procs[p].stage.Verified? && s.procs[q].stage.Verified? && !Wildcard(s.procs[p].cond.expected)
    ensures p == q
  {
    assert WriterOk(md5, s, p) && WriterOk(md5, s, q);
    assert WriterPolite(md5, s, p, k) && WriterPolite(md5, s, q, k);
  }

  /** What a publication on `k` leaves there. */
  lemma PublishedEtag(md5: Digest, s: System, p: Pid, act: CommitAct, k: Key)
    requires WellFormed(md5, s) && CanCommit(s, p, act) && Member(s, p, k) && s.procs[p].origin.Upload?
    requires Publishes(act) && !DoCommit(s, p, act).procs[p].stage.Failed?
    ensures EtagAt(DoCommit(s, p, act), Object(k)) == Some(Some(EtagOf(md5, s.procs[p].body)))
  {
    assert WriterOk(md5, s, p);
  }

  lemma SwapIsPolite(md5: Digest, s: System, p: Pid, k: Key)
    requires WellFormed(md5, s) && Polite(md5, s, k) && CanCommit(s, p, RenameLocked) && Member(s, p, k)
    requires Temp(p) in s.dir
    ensures Polite(md5, DoCommit(s, p, RenameLocked), k)
  {
    var t := DoCommit(s, p, RenameLocked);
    assert WriterOk(md5, s, p) && WriterPolite(md5, s, p, k);
    PublishedEtag(md5, s, p, RenameLocked, k);
    forall q | Swapper(s, q, k) && q != p ensures Leaves(s, t, k, q) {
      assert WriterPolite(md5, s, q, k);
      if s.procs[q].stage.Verified? && !Wildcard(s.procs[p].cond.expected) {
        OneVerifiedSwapper(md5, s, p, q, k);
      }
    }
    LeavingKeepsPolite(md5, s, Commits(p, RenameLocked), k);
  }

  lemma CreateIsPolite(md5: Digest, s: System, p: Pid, k: Key)
    requires WellFormed(md5, s) && Polite(md5, s, k) && CanCommit(s, p, RenameNoReplace) && Member(s, p, k)
    ensures Polite(md5, DoCommit(s, p, RenameNoReplace), k)
  {
    var t := DoCommit(s, p, RenameNoReplace);
    assert WriterOk(md5, s, p) && WriterPolite(md5, s, p, k);
    forall q | Swapper(s, q, k) && q != p ensures Leaves(s, t, k, q) {
      assert WriterPolite(md5, s, q, k);
      if Object(k) in s.dir {
        CalmLeaves(s, t, k, q);
      }
    }
    LeavingKeepsPolite(md5, s, Commits(p, RenameNoReplace), k);
  }

  lemma UnlinkIsPolite(md5: Digest, s: System, p: Pid, k: Key)
    requires WellFormed(md5, s) && Polite(md5, s, k) && CanCommit(s, p, UnlinkLock) && Member(s, p, k)
    ensures Polite(md5, DoCommit(s, p, UnlinkLock), k)
  {
    var t := DoCommit(s, p, UnlinkLock);
    assert WriterOk(md5, s, p) && WriterPolite(md5, s, p, k);
    LockPathIsAnother(k);
    assert EtagAt(t, Object(k)) == EtagAt(s, Object(k));
    forall q | Swapper(s, q, k) && q != p ensures Leaves(s, t, k, q) {
      assert WriterPolite(md5, s, q, k);
    }
    LeavingKeepsPolite(md5, s, Commits(p, UnlinkLock), k);
  }

  lemma CommitIsPolite(md5: Digest, s: System, p: Pid, act: CommitAct, k: Key)
    requires WellFormed(md5, s) && Polite(md5, s, k) && CanCommit(s, p, act)
    ensures Polite(md5, DoCommit(s, p, act), k)
  {
    assert WriterPolite(md5, s, p, k);
    if s.procs[p].dest != Object(k) {
      QuietCommitIsPolite(md5, s, p, act, k);
    } else {
      match act
      case RenameNoReplace => CreateIsPolite(md5, s, p, k);
      case RenameLocked =>
        if Temp(p) in s.dir {
          SwapIsPolite(md5, s, p, k);
        } else {
          QuietCommitIsPolite(md5, s, p, Abort(false), k);
        }
      case UnlinkLock => UnlinkIsPolite(md5, s, p, k);
      case _ => QuietCommitIsPolite(md5, s, p, act, k);
    }
  }

  lemma OutsideIsPolite(md5: Digest, s: System, a: Step, k: Key)
    requires WellFormed(md5, s) && Polite(md5, s, k) && Can(s, a) && PoliteStep(md5, s, a, k)
    requires a.Reads? || a.Names?
    ensures Polite(md5, Do(md5, s, a), k)
  {
    var t := Do(md5, s, a);
    forall q | Swapper(s, q, k) ensures Leaves(s, t, k, q) {
      assert WriterPolite(md5, s, q, k);
      CalmLeaves(s, t, k, q);
    }
    LeavingKeepsPolite(md5, s, a, k);
  }

  lemma StepKeepsPolite(md5: Digest, s: System, a: Step, k: Key)
    requires WellFormed(md5, s) && Polite(md5, s, k) && Can(s, a) && PoliteStep(md5, s, a, k)
    ensures Polite(md5, Do(md5, s, a), k)
  {
    match a
    case Begins(p, act) => BeginIsPolite(md5, s, p, act, k);
    case Prepares(p, act) => PrepareIsPolite(md5, s, p, act, k);
    case Commits(p, act) => CommitIsPolite(md5, s, p, act, k);
    case Reads(_, _) => OutsideIsPolite(md5, s, a, k);
    case Names(_) => OutsideIsPolite(md5, s, a, k);
    case Crash(_) =>
  }

  ghost predicate PoliteRun(md5: Digest, s: System, steps: seq<Step>, k: Key)
    requires Legal(md5, s, steps)
    decreases |steps|
  {
    steps == [] || (PoliteStep(md5, s, steps[0], k) && PoliteRun(md5, Do(md5, s, steps[0]), steps[1..], k))
  }

  /**
   * Compare-and-swap for clients that share their expectation while they overlap: in every
   * interleaving, with If-None-Match writers on the key, other keys' traffic, sweeps, errors and
   * crashes, each swap replaces the version its writer expected.
   */
  lemma {:induction false} PoliteSwapsMatch(md5: Digest, s: System, steps: seq<Step>, k: Key)
    requires WellFormed(md5, s) && Polite(md5, s, k)
    requires Legal(md5, s, steps) && PoliteRun(md5, s, steps, k)
    ensures SwapsMatch(md5, s, steps, k)
    decreases |steps|
  {
    if steps == [] {
    } else {
      var a := steps[0];
      StepKeepsWellFormed(md5, s, a);
      StepKeepsPolite(md5, s, a, k);
      PoliteSwapsMatch(md5, Do(md5, s, a), steps[1..], k);
      if IsSwap(s, a, k) {
        assert WriterPolite(md5, s, a.pid, k);
        assert WriterOk(md5, s, a.pid);
      }
    }
  }
}
