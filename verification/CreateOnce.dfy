/** If-None-Match writes commit with a rename that fails when the key is taken. */
module CreateOnce {
  import opened Types
  import opened Etags
  import opened CommitProtocol
  import opened CommitSafety
  import Sequences

  predicate Holds(s: System, k: Key) {
    Object(k) in s.dir
  }

  /** The step is an If-None-Match commit on `k` that succeeds. */
  predicate IsCreate(md5: Digest, s: System, a: Step, k: Key)
    requires Can(s, a)
  {
    a.Commits? && a.commit.RenameNoReplace? && s.procs[a.pid].dest == Object(k)
    && Do(md5, s, a).procs[a.pid].stage.Succeeded?
  }

  /** The step takes the name `k` away: a delete, a move or the unlinking of a lock file. */
  predicate IsRemoval(md5: Digest, s: System, a: Step, k: Key)
    requires Can(s, a)
  {
    Holds(s, k) && !Holds(Do(md5, s, a), k)
  }

  function Creates(md5: Digest, s: System, steps: seq<Step>, k: Key): nat
    requires Legal(md5, s, steps)
    decreases |steps|
  {
    if steps == [] then 0
    else (if IsCreate(md5, s, steps[0], k) then 1 else 0) + Creates(md5, Do(md5, s, steps[0]), steps[1..], k)
  }

  function Removals(md5: Digest, s: System, steps: seq<Step>, k: Key): nat
    requires Legal(md5, s, steps)
    decreases |steps|
  {
    if steps == [] then 0
    else (if IsRemoval(md5, s, steps[0], k) then 1 else 0) + Removals(md5, Do(md5, s, steps[0]), steps[1..], k)
  }

  /** A successful If-None-Match commit found the key absent and left it holding the writer's upload. */
  lemma CreateFoundKeyAbsent(md5: Digest, s: System, a: Step, k: Key)
    requires WellFormed(md5, s) && Can(s, a) && IsCreate(md5, s, a, k)
    ensures !Holds(s, k)
    ensures Holds(Do(md5, s, a), k) && Do(md5, s, a).dir[Object(k)] == s.procs[a.pid].ino
  {
    assert WriterOk(md5, s, a.pid);
  }

  /**
   * Over every run of unconditional, If-None-Match and If-Match writers with copies, moves,
   * deletes, sweeps and crashes: the creates on a key are at most one more than its removals,
   * and none more when the key existed at the start or is gone at the end.
   */
  lemma {:induction false} CreatesBounded(md5: Digest, s: System, steps: seq<Step>, k: Key)
    requires WellFormed(md5, s) && Legal(md5, s, steps)
    ensures Creates(md5, s, steps, k) + (if Holds(s, k) then 1 else 0)
            <= Removals(md5, s, steps, k) + (if Holds(Run(md5, s, steps), k) then 1 else 0)
    decreases |steps|
  {
    if steps == [] {
    } else {
      var a := steps[0];
      StepKeepsWellFormed(md5, s, a);
      CreatesBounded(md5, Do(md5, s, a), steps[1..], k);
      if IsCreate(md5, s, a, k) {
        CreateFoundKeyAbsent(md5, s, a, k);
      }
    }
  }

  predicate CreatorDone(s: System, p: Pid, k: Key) {
    IsWriter(s, p) && s.procs[p].dest == Object(k) && s.procs[p].cond.IfNoneMatch? && s.procs[p].stage.Succeeded?
  }

  function Creators(s: System, k: Key): set<Pid> {
    set p | p in s.procs && CreatorDone(s, p, k)
  }

  lemma CreatorStep(md5: Digest, s: System, a: Step, k: Key)
    requires WellFormed(md5, s) && Can(s, a)
    ensures Creators(Do(md5, s, a), k) <= Creators(s, k) + (if IsCreate(md5, s, a, k) then {a.pid} else {})
  {
    var t := Do(md5, s, a);
    StepFrame(md5, s, a);
    forall p | p in Creators(t, k) ensures p in Creators(s, k) || (IsCreate(md5, s, a, k) && p == a.pid) {
      if Actor(a) == Some(p) && p in s.procs && !CreatorDone(s, p, k) {
        CreatorOwnStep(md5, s, a, p, k);
      }
    }
  }

  lemma CreatorOwnStep(md5: Digest, s: System, a: Step, p: Pid, k: Key)
    requires WellFormed(md5, s) && Can(s, a) && Actor(a) == Some(p) && p in s.procs
    requires !CreatorDone(s, p, k) && CreatorDone(Do(md5, s, a), p, k)
    ensures IsCreate(md5, s, a, k)
  {
    assert IsWriter(s, p) ==> WriterOk(md5, s, p);
  }

  lemma {:induction false} CreatorsCounted(md5: Digest, s: System, steps: seq<Step>, k: Key)
    requires WellFormed(md5, s) && Legal(md5, s, steps)
    ensures |Creators(Run(md5, s, steps), k)| <= |Creators(s, k)| + Creates(md5, s, steps, k)
    decreases |steps|
  {
    if steps == [] {
    } else {
      var a := steps[0];
      StepKeepsWellFormed(md5, s, a);
      CreatorsCounted(md5, Do(md5, s, a), steps[1..], k);
      CreatorStep(md5, s, a, k);
      var extra: set<Pid> := if IsCreate(md5, s, a, k) then {a.pid} else {};
      Sequences.SubsetSize(Creators(Do(md5, s, a), k), Creators(s, k) + extra);
    }
  }

  /** On a fresh key that nothing removes, at most one If-None-Match writer ever succeeds. */
  lemma AtMostOneCreator(md5: Digest, s: System, steps: seq<Step>, k: Key)
    requires WellFormed(md5, s) && Legal(md5, s, steps)
    requires s.procs == map[] && Removals(md5, s, steps, k) == 0
    ensures |Creators(Run(md5, s, steps), k)| <= 1
    ensures Holds(s, k) ==> Creators(Run(md5, s, steps), k) == {}
  {
    CreatesBounded(md5, s, steps, k);
    CreatorsCounted(md5, s, steps, k);
  }
}
