/**
 * What goes wrong after a flock on a lock file that is no longer at the lock path.
 *
 * A writer past its flock is safe in every disciplined continuation exactly when the file it
 * locked is the one at the lock path.
 */
module StaleFlock {
  import opened Types
  import opened Etags
  import opened Sequences
  import opened CommitProtocol
  import opened CommitSafety
  import opened CompareAndSwap
  import opened GuardedSwap
  import opened CommitRuns

  /** Every flock is held by the process that took it. */
  ghost predicate FlocksOwned(s: System) {
    forall l :: l in s.flocks ==>
      IsWriter(s, s.flocks[l]) && HoldsLock(s.procs[s.flocks[l]].stage) && s.procs[s.flocks[l]].stage.lock == l
  }

  lemma PrepareKeepsFlocks(md5: Digest, s: System, p: Pid, act: PrepareAct)
    requires CanPrepare(s, p, act)
    ensures !HoldsLock(s.procs[p].stage) && DoPrepare(md5, s, p, act).flocks == s.flocks
  {
  }

  lemma PrepareKeepsFlocksOwned(md5: Digest, s: System, p: Pid, act: PrepareAct)
    requires FlocksOwned(s) && CanPrepare(s, p, act)
    ensures FlocksOwned(DoPrepare(md5, s, p, act))
  {
    PrepareKeepsFlocks(md5, s, p, act);
    PrepareShape(md5, s, p, act);
  }

  lemma CommitKeepsFlocksOwned(s: System, p: Pid, act: CommitAct)
    requires FlocksOwned(s) && CanCommit(s, p, act)
    ensures FlocksOwned(DoCommit(s, p, act))
  {
  }

  lemma BeginKeepsFlocksOwned(md5: Digest, s: System, p: Pid, act: BeginAct)
    requires WellFormed(md5, s) && FlocksOwned(s) && CanBegin(s, p, act)
    ensures FlocksOwned(DoBegin(s, p, act))
  {
    BeginFrame(s, p, act);
    assert DoBegin(s, p, act).flocks == s.flocks;
  }

  lemma StepKeepsFlocksOwned(md5: Digest, s: System, a: Step)
    requires WellFormed(md5, s) && FlocksOwned(s) && Can(s, a)
    ensures FlocksOwned(Do(md5, s, a))
  {
    match a
    case Begins(p, act) => BeginKeepsFlocksOwned(md5, s, p, act);
    case Prepares(p, act) => PrepareKeepsFlocksOwned(md5, s, p, act);
    case Commits(p, act) => CommitKeepsFlocksOwned(s, p, act);
    case _ =>
  }

  /** Flocks are owned in every reachable state. */
  lemma {:induction false} RunKeepsFlocksOwned(md5: Digest, s: System, steps: seq<Step>)
    requires WellFormed(md5, s) && FlocksOwned(s) && Legal(md5, s, steps)
    ensures FlocksOwned(Run(md5, s, steps))
    decreases |steps|
  {
    if steps == [] {
    } else {
      StepKeepsWellFormed(md5, s, steps[0]);
      StepKeepsFlocksOwned(md5, s, steps[0]);
      RunKeepsFlocksOwned(md5, Do(md5, s, steps[0]), steps[1..]);
    }
  }

  /** Writer `p` is past its re-check on `k` and can still rename its tagged temp file. */
  ghost predicate CanSwap(s: System, p: Pid, k: Key) {
    && Member(s, p, k) && s.procs[p].stage.Verified? && s.procs[p].cond.IfMatch? && p in s.used
    && Temp(p) in s.dir && s.dir[Temp(p)] in s.heap && s.heap[s.dir[Temp(p)]].etag == Some(s.procs[p].tag)
  }

  /** Moreover the re-check would pass again. */
  ghost predicate ReadyToSwap(s: System, p: Pid, k: Key) {
    CanSwap(s, p, k) && CheckPasses(s, Object(k), s.procs[p].cond.expected)
  }

  /** Nobody holds the lock file at the lock path, if there is one. */
  predicate LockFree(s: System, k: Key) {
    LockPath(k) in s.dir ==> s.dir[LockPath(k)] !in s.flocks
  }

  /** Whoever holds the lock file at the lock path can let go of it. */
  lemma FreeTheLock(md5: Digest, from: System, steps: seq<Step>, s: System, p: Pid, k: Key)
    returns (more: seq<Step>, t: System)
    requires Leads(md5, from, steps, s) && GuardedRun(md5, from, steps, k)
    requires FlocksOwned(s) && ReadyToSwap(s, p, k) && !Current(s, k, s.procs[p].stage.lock)
    requires NoDangling(s)
    ensures Leads(md5, from, more, t) && GuardedRun(md5, from, more, k)
    ensures FlocksOwned(t) && ReadyToSwap(t, p, k) && !Current(t, k, t.procs[p].stage.lock) && LockFree(t, k)
    ensures t.procs[p] == s.procs[p] && t.heap == s.heap && t.dir == s.dir && t.used == s.used
  {
    more, t := steps, s;
    if !LockFree(s, k) {
      var q := s.flocks[s.dir[LockPath(k)]];
      var act := if s.procs[q].stage.Unlinked? then Release else Abort(false);
      more, t := LeadsOn(md5, from, steps, s, Commits(q, act));
      CommitKeepsFlocksOwned(s, q, act);
      CommitKeepsNames(s, q, act);
      assert t.procs[p] == s.procs[p];
    }
  }

  /** Another upload in flight changes nothing for `p`. */
  lemma UploadKeepsPlace(md5: Digest, s: System, r: Pid, k: Key, body: bytes, cond: Condition, ino: Ino, p: Pid)
    requires CanSwap(s, p, k) && ino !in s.heap && r !in s.used && NoDangling(s)
    ensures var t := WithUpload(md5, s, r, k, body, cond, ino, Tagged);
            && CanSwap(t, p, k) && NoDangling(t) && EtagAt(t, Object(k)) == EtagAt(s, Object(k))
            && (LockFree(s, k) && ino !in s.flocks ==> LockFree(t, k))
  {
  }

  /** A newcomer whose expectation is met gets past its re-check as well. */
  lemma Arrive(md5: Digest, from: System, steps: seq<Step>, s: System, p: Pid, k: Key, body: bytes, e: string)
    returns (more: seq<Step>, t: System, r: Pid)
    requires Leads(md5, from, steps, s) && GuardedRun(md5, from, steps, k)
    requires CanSwap(s, p, k) && LockFree(s, k) && NoDangling(s) && CheckPasses(s, Object(k), e)
    ensures Leads(md5, from, more, t) && GuardedRun(md5, from, more, k)
    ensures r != p && CanSwap(t, r, k) && t.procs[r].cond == IfMatch(e) && t.procs[r].tag == EtagOf(md5, body)
    ensures CanSwap(t, p, k) && t.procs[p] == s.procs[p] && NoDangling(t)
    ensures EtagAt(t, Object(k)) == EtagAt(s, Object(k))
  {
    r := Unused(s.used);
    var ino := Unused(s.heap.Keys + s.flocks.Keys);
    assert r !in s.used && ino !in s.heap.Keys + s.flocks.Keys && ino + 1 !in s.heap.Keys + s.flocks.Keys;
    LockPathIsAnother(k);
    more, t := LeadsThroughUpload(md5, from, steps, s, r, k, body, IfMatch(e), ino);
    UploadKeepsPlace(md5, s, r, k, body, IfMatch(e), ino, p);
    more, t := LeadsThroughLock(md5, from, more, t, r, k, ino + 1);
  }

  /** A newcomer publishes `other` over a version that its expectation matches, and leaves. */
  lemma Overtake(md5: Digest, from: System, steps: seq<Step>, s: System, p: Pid, k: Key, other: bytes)
    returns (more: seq<Step>, t: System)
    requires Leads(md5, from, steps, s) && GuardedRun(md5, from, steps, k)
    requires ReadyToSwap(s, p, k) && LockFree(s, k) && NoDangling(s)
    ensures Leads(md5, from, more, t) && GuardedRun(md5, from, more, k)
    ensures CanSwap(t, p, k) && t.procs[p] == s.procs[p] && NoDangling(t)
    ensures LockPath(k) !in t.dir && EtagAt(t, Object(k)) == Some(Some(EtagOf(md5, other)))
  {
    var r;
    more, t, r := Arrive(md5, from, steps, s, p, k, other, s.procs[p].cond.expected);
    LockPathIsAnother(k);
    more, t := LeadsThroughSwap(md5, from, more, t, r, k);
  }

  /** A newcomer that expects the current version is verified on a new lock, and then `p` renames first. */
  lemma Undercut(md5: Digest, from: System, steps: seq<Step>, s: System, p: Pid, k: Key, e: string)
    returns (more: seq<Step>, t: System)
    requires Leads(md5, from, steps, s) && GuardedRun(md5, from, steps, k)
    requires CanSwap(s, p, k) && NoDangling(s) && LockPath(k) !in s.dir
    requires EtagAt(s, Object(k)) == Some(Some(e)) && e != s.procs[p].tag && !Wildcard(e)
    ensures Leads(md5, from, more, t) && GuardedRun(md5, from, more, k) && !SwapsMatch(md5, from, more, k)
  {
    var r;
    more, t, r := Arrive(md5, from, steps, s, p, k, [], e);
    LockPathIsAnother(k);
    more, t := LeadsOn(md5, from, more, t, Commits(p, RenameLocked));
    assert EtagAt(t, Object(k)) == Some(Some(s.procs[p].tag));
    assert IsMismatch(t, Commits(r, RenameLocked), k);
    more, t := LeadsOn(md5, from, more, t, Commits(r, RenameLocked));
  }

  /** A continuation in which a version is replaced that its writer never compared. */
  lemma StaleFlockLosesUpdates(md5: Digest, s: System, p: Pid, k: Key, x: bytes, y: bytes)
    returns (steps: seq<Step>, t: System)
    requires WellFormed(md5, s) && FlocksOwned(s) && ReadyToSwap(s, p, k)
    requires !Current(s, k, s.procs[p].stage.lock)
    requires EtagOf(md5, x) != EtagOf(md5, y)
    ensures Leads(md5, s, steps, t) && GuardedRun(md5, s, steps, k) && !SwapsMatch(md5, s, steps, k)
  {
    var w := s.procs[p];
    var avoided := if Wildcard(w.cond.expected) then w.tag else w.cond.expected;
    var other := if EtagOf(md5, x) != avoided then x else y;
    LeadsNowhere(md5, s);
    steps, t := FreeTheLock(md5, s, [], s, p, k);
    steps, t := Overtake(md5, s, steps, t, p, k, other);
    EtagIsNoWildcard(md5, other);
    if Wildcard(w.cond.expected) {
      steps, t := Undercut(md5, s, steps, t, p, k, EtagOf(md5, other));
    } else {
      assert IsMismatch(t, Commits(p, RenameLocked), k);
      steps, t := LeadsOn(md5, s, steps, t, Commits(p, RenameLocked));
    }
  }

  /** Every disciplined continuation replaces only what it compared. */
  ghost predicate SafeFrom(md5: Digest, s: System, k: Key) {
    forall steps :: Legal(md5, s, steps) && GuardedRun(md5, s, steps, k) ==> SwapsMatch(md5, s, steps, k)
  }

  /**
   * The exact condition: after a flock whose re-check passes, every disciplined continuation is
   * compare-and-swap if and only if the file locked is the one at the lock path.
   */
  lemma SafeExactlyOnCurrentLock(md5: Digest, s: System, p: Pid, k: Key, x: bytes, y: bytes)
    requires WellFormed(md5, s) && FlocksOwned(s) && Guarded(s, k)
    requires Member(s, p, k) && CanCommit(s, p, Flock) && s.procs[p].cond.IfMatch? && Temp(p) in s.dir
    requires CheckPasses(s, Object(k), s.procs[p].cond.expected) && EtagOf(md5, x) != EtagOf(md5, y)
    ensures SafeFrom(md5, DoCommit(s, p, Flock), k) <==> Current(s, k, s.procs[p].stage.lock)
  {
    var a := Commits(p, Flock);
    var t := Do(md5, s, a);
    StepKeepsWellFormed(md5, s, a);
    if Current(s, k, s.procs[p].stage.lock) {
      FlockKeepsGuardedExactly(md5, s, p, k);
      forall steps | Legal(md5, t, steps) && GuardedRun(md5, t, steps, k) ensures SwapsMatch(md5, t, steps, k) {
        GuardedSwapsMatch(md5, t, steps, k);
      }
    } else {
      StepKeepsFlocksOwned(md5, s, a);
      var steps := StaleContinuation(md5, t, p, k, x, y);
    }
  }

  lemma StaleContinuation(md5: Digest, t: System, p: Pid, k: Key, x: bytes, y: bytes) returns (steps: seq<Step>)
    requires WellFormed(md5, t) && FlocksOwned(t)
    requires Member(t, p, k) && t.procs[p].stage.LockHeld? && t.procs[p].cond.IfMatch? && Temp(p) in t.dir
    requires CheckPasses(t, Object(k), t.procs[p].cond.expected) && EtagOf(md5, x) != EtagOf(md5, y)
    requires !Current(t, k, t.procs[p].stage.lock)
    ensures Legal(md5, t, steps) && GuardedRun(md5, t, steps, k) && !SwapsMatch(md5, t, steps, k)
  {
    var a := Commits(p, Recheck);
    StepKeepsWellFormed(md5, t, a);
    StepKeepsFlocksOwned(md5, t, a);
    var u := Do(md5, t, a);
    var rest, v := StaleFlockLosesUpdates(md5, u, p, k, x, y);
    steps := [a] + rest;
    assert steps[1..] == rest;
  }
}
