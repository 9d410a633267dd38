/** Which keys can stop leading to anything although nobody deletes or moves them. */
module LostKeys {
  import opened Types
  import opened Etags
  import opened TempFile
  import opened Keys
  import opened CommitProtocol
  import opened CommitSafety
  import opened CreateOnce
  import opened CommitRuns
  import CommitLimits

  /** The step deletes `k`, moves it to another key, or removes it with a directory tree. */
  predicate TakesAway(a: Step, k: Key) {
    match a
    case Names(Delete(key)) => key == k
    case Names(Move(src, dst)) => src == k && dst != k
    case Names(Reap(path)) => path == Object(k)
    case _ => false
  }

  /** Clients can only name keys that pass validation; any step that names none is fine. */
  predicate ValidNames(a: Step) {
    match a
    case Begins(_, Put(key, _, _, _)) => ValidKey(key)
    case Begins(_, Copy(src, dst, _)) => ValidKey(src) && ValidKey(dst)
    case Begins(_, Assemble(key, _, _, _)) => ValidKey(key)
    case Begins(_, Open(key)) => ValidKey(key)
    case Begins(_, PutPart(dest, _, _, _)) => dest.Object? ==> ValidKey(dest.key)
    case Names(Delete(key)) => ValidKey(key)
    case Names(Move(src, dst)) => ValidKey(src) && ValidKey(dst)
    case _ => true
  }

  ghost predicate Ordinary(steps: seq<Step>, k: Key) {
    forall a :: a in steps ==> ValidNames(a) && !TakesAway(a, k)
  }

  /** The key whose lock file is at `k`. */
  function LockOwner(k: Key): Key
    requires IsLockKey(k)
  {
    k[..|k| - 5]
  }

  lemma LockOwnerOf(key: Key)
    ensures IsLockKey(key + LOCK_SUFFIX) && LockOwner(key + LOCK_SUFFIX) == key
    ensures LockPath(key) == Object(key + LOCK_SUFFIX)
  {
    LockPathIsLockKey(key);
    assert (key + LOCK_SUFFIX)[..|key|] == key;
  }

  /** Destinations of writers have passed validation. */
  ghost predicate ValidDests(s: System) {
    forall p :: IsWriter(s, p) && s.procs[p].dest.Object? ==> ValidKey(s.procs[p].dest.key)
  }

  lemma StepKeepsValidDests(md5: Digest, s: System, a: Step)
    requires ValidDests(s) && Can(s, a) && ValidNames(a)
    ensures ValidDests(Do(md5, s, a))
  {
    StepFrame(md5, s, a);
    match a
    case Prepares(p, act) => CompareAndSwap.PrepareShape(md5, s, p, act);
    case Commits(p, act) => CommitStages(s, p, act);
    case _ =>
  }

  /** A commit takes only lock files and its own temp file away. */
  lemma CommitRemoves(s: System, p: Pid, act: CommitAct, k: Key)
    requires CanCommit(s, p, act) && Object(k) in s.dir && Object(k) !in DoCommit(s, p, act).dir
    ensures act.UnlinkLock? && s.procs[p].dest.Object? && Object(k) == LockPath(s.procs[p].dest.key)
  {
  }

  /** A removal is a delete, a move to another key, or the unlinking of a lock file. */
  lemma RemovalIs(md5: Digest, s: System, a: Step, k: Key)
    requires Can(s, a) && IsRemoval(md5, s, a, k)
    ensures TakesAway(a, k)
            || (a.Commits? && a.commit.UnlinkLock? && s.procs[a.pid].dest.Object?
                && IsLockKey(k) && LockOwner(k) == s.procs[a.pid].dest.key)
  {
    match a
    case Prepares(p, act) => PrepareKeepsDir(md5, s, p, act);
    case Commits(p, act) =>
      CommitRemoves(s, p, act, k);
      LockOwnerOf(s.procs[p].dest.key);
    case _ =>
  }

  /** A key that is not the lock path of a valid key stays held until it is deleted or moved. */
  lemma {:induction false} HeldKeyStays(md5: Digest, s: System, steps: seq<Step>, k: Key)
    requires Legal(md5, s, steps) && ValidDests(s) && Ordinary(steps, k)
    requires Holds(s, k) && !(IsLockKey(k) && ValidKey(LockOwner(k)))
    ensures Holds(Run(md5, s, steps), k)
    decreases |steps|
  {
    if steps == [] {
    } else {
      var a := steps[0];
      assert a in steps;
      StepKeepsValidDests(md5, s, a);
      if !Holds(Do(md5, s, a), k) {
        RemovalIs(md5, s, a, k);
      }
      assert forall b :: b in steps[1..] ==> b in steps;
      HeldKeyStays(md5, Do(md5, s, a), steps[1..], k);
    }
  }

  /** From the empty store `k` comes to be held and is then lost, without a delete or move of `k`. */
  ghost predicate CanBeLost(md5: Digest, k: Key) {
    exists before: seq<Step>, after: seq<Step> :: Loses(md5, before, after, k)
  }

  ghost predicate Loses(md5: Digest, before: seq<Step>, after: seq<Step>, k: Key) {
    && Legal(md5, EMPTY, before) && Legal(md5, Run(md5, EMPTY, before), after)
    && Ordinary(before, k) && Ordinary(after, k)
    && Holds(Run(md5, EMPTY, before), k) && !Holds(Run(md5, Run(md5, EMPTY, before), after), k)
  }

  lemma {:induction false} RunKeepsValidDests(md5: Digest, s: System, steps: seq<Step>, k: Key)
    requires ValidDests(s) && Legal(md5, s, steps) && Ordinary(steps, k)
    ensures ValidDests(Run(md5, s, steps))
    decreases |steps|
  {
    if steps == [] {
    } else {
      assert steps[0] in steps;
      assert forall b :: b in steps[1..] ==> b in steps;
      StepKeepsValidDests(md5, s, steps[0]);
      RunKeepsValidDests(md5, Do(md5, s, steps[0]), steps[1..], k);
    }
  }

  // ---- The other half: such a lock path is lost ----

  /** Lengthening the last piece makes no piece of two dots. */
  lemma LongerLastPiece(parts: seq<string>, all: seq<string>, suffix: string)
    requires parts != [] && ".." !in parts && |suffix| > 2
    requires all == parts[..|parts| - 1] + [parts[|parts| - 1] + suffix]
    ensures ".." !in all
  {
    assert |parts[|parts| - 1] + suffix| > 2;
    assert forall i :: 0 <= i < |parts| - 1 ==> all[i] == parts[i];
  }

  /** A valid key with a suffix is a valid key. */
  lemma LockPathIsValid(key: Key)
    requires ValidKey(key)
    ensures ValidKey(key + LOCK_SUFFIX)
  {
    SplitThen(key, LOCK_SUFFIX, '/');
    assert ['.', '.'] == "..";
    LongerLastPiece(Split(key, '/'), Split(key + LOCK_SUFFIX, '/'), LOCK_SUFFIX);
  }

  /** The keys that a process was begun with. */
  predicate NamedValidly(w: Process) {
    match w
    case Writer(dest, _, _, origin, _, _, _) =>
      (dest.Object? ==> ValidKey(dest.key)) && (origin.CopyOf? ==> ValidKey(origin.src))
    case Reader(key, _, _, _) => ValidKey(key)
  }

  lemma RecordStays(md5: Digest, s: System, a: Step, p: Pid)
    requires Can(s, a) && !a.Crash? && p in s.procs && p in s.used
    ensures var t := Do(md5, s, a);
            p in t.procs && p in t.used && (NamedValidly(t.procs[p]) ==> NamedValidly(s.procs[p]))
  {
    match a
    case Begins(q, act) => BeginFrame(s, q, act);
    case Prepares(q, act) =>
      CompareAndSwap.PrepareShape(md5, s, q, act);
      PrepareKeepsNames(md5, s, q, act);
    case Commits(q, act) =>
      CommitStages(s, q, act);
      CommitKeepsNames(s, q, act);
      CommitFrame(s, q, act);
    case _ =>
  }

  lemma {:induction false} RecordLasts(md5: Digest, s: System, steps: seq<Step>, p: Pid)
    requires Legal(md5, s, steps) && OnlyProcessSteps(steps) && p in s.procs && p in s.used
    ensures var t := Run(md5, s, steps);
            p in t.procs && (NamedValidly(t.procs[p]) ==> NamedValidly(s.procs[p]))
    decreases |steps|
  {
    if steps != [] {
      assert steps[0] in steps && forall b :: b in steps[1..] ==> b in steps;
      RecordStays(md5, s, steps[0], p);
      RecordLasts(md5, Do(md5, s, steps[0]), steps[1..], p);
    }
  }

  ghost predicate AllNamedValidly(s: System) {
    forall p :: p in s.procs ==> NamedValidly(s.procs[p])
  }

  /** In a run of process steps the records of the final state tell which keys were named. */
  lemma {:induction false} RecordsShowNames(md5: Digest, s: System, steps: seq<Step>, k: Key)
    requires Legal(md5, s, steps) && OnlyProcessSteps(steps)
    requires AllNamedValidly(Run(md5, s, steps))
    ensures Ordinary(steps, k)
    decreases |steps|
  {
    if steps == [] {
    } else {
      var a := steps[0];
      assert a in steps && forall b :: b in steps[1..] ==> b in steps;
      assert Run(md5, Do(md5, s, a), steps[1..]) == Run(md5, s, steps);
      RecordsShowNames(md5, Do(md5, s, a), steps[1..], k);
      if a.Begins? {
        RecordLasts(md5, Do(md5, s, a), steps[1..], a.pid);
      }
      assert forall b :: b in steps ==> b == a || b in steps[1..];
    }
  }

  lemma LockPathIsLost(md5: Digest, owner: Key)
    requires ValidKey(owner)
    ensures CanBeLost(md5, owner + LOCK_SUFFIX)
  {
    var k := owner + LOCK_SUFFIX;
    LockPathIsValid(owner);
    var before, s, after, t := CommitLimits.LockKeyLost(md5, [], [], owner);
    RunThen(md5, EMPTY, before, after);
    assert forall a :: a in before + after ==> a in before || a in after;
    RecordsShowNames(md5, EMPTY, before + after, k);
    assert forall a :: a in before || a in after ==> a in before + after;
    assert Loses(md5, before, after, k);
  }

  /** A key can be lost exactly when it is the lock path of a valid key. */
  lemma LostExactly(md5: Digest, k: Key)
    ensures CanBeLost(md5, k) <==> IsLockKey(k) && ValidKey(LockOwner(k))
  {
    if CanBeLost(md5, k) {
      var before: seq<Step>, after: seq<Step> :| Loses(md5, before, after, k);
      RunKeepsValidDests(md5, EMPTY, before, k);
      if !(IsLockKey(k) && ValidKey(LockOwner(k))) {
        HeldKeyStays(md5, Run(md5, EMPTY, before), after, k);
      }
    }
    if IsLockKey(k) && ValidKey(LockOwner(k)) {
      LockPathIsLost(md5, LockOwner(k));
      assert LockOwner(k) + LOCK_SUFFIX == k;
    }
  }
}
