/** Sweeping the temp file of a process that is done: returned, or lost in a crash. */
module TempSweep {
  import opened Types
  import opened Etags
  import opened CommitProtocol
  import opened CommitSafety

  /** The process has been lost in a crash, or its call has returned. */
  predicate Gone(s: System, p: Pid) {
    p in s.used && (p in s.procs ==> s.procs[p].Writer? && (s.procs[p].stage.Succeeded? || s.procs[p].stage.Failed?))
  }

  function Swept(s: System, p: Pid): System {
    s.(dir := s.dir - {Temp(p)})
  }

  lemma SweptMove(dir: map<Path, Ino>, from: Path, to: Path, gone: Path)
    requires from in dir && from != gone && to != gone
    ensures MovePath(dir - {gone}, from, to) == MovePath(dir, from, to) - {gone}
  {
  }

  lemma SweptFail(s: System, q: Pid, cleaned: bool, p: Pid)
    requires IsWriter(s, q)
    ensures Fail(Swept(s, p), q, cleaned) == Swept(Fail(s, q, cleaned), p)
  {
    assert s.dir - {Temp(p)} - {Temp(q)} == s.dir - {Temp(q)} - {Temp(p)};
  }

  lemma SweptPublish(s: System, q: Pid, stage: Stage, p: Pid)
    requires IsWriter(s, q) && Temp(q) in s.dir && q != p && !s.procs[q].dest.Temp?
    ensures Publish(Swept(s, p), q, stage) == Swept(Publish(s, q, stage), p)
  {
    SweptMove(s.dir, Temp(q), s.procs[q].dest, Temp(p));
  }

  lemma SweptEtag(s: System, path: Path, p: Pid)
    requires !path.Temp?
    ensures EtagAt(Swept(s, p), path) == EtagAt(s, path)
  {
  }

  lemma SweptCheck(s: System, q: Pid, p: Pid)
    requires CanPrepare(s, q, Check) && q != p && !s.procs[q].dest.Temp?
    ensures CanPrepare(Swept(s, p), q, Check) && DoCheck(Swept(s, p), q) == Swept(DoCheck(s, q), p)
  {
    var w := s.procs[q];
    SweptEtag(s, w.dest, p);
    if w.origin.CopyOf? {
      SweptEtag(s, Object(w.origin.src), p);
    }
    SweptFail(s, q, false, p);
    SweptFail(s, q, true, p);
  }

  lemma SweptGather(s: System, q: Pid, act: PrepareAct, p: Pid)
    requires CanPrepare(s, q, act) && q != p && (act.CheckPart? || act.AppendPart?)
    ensures CanPrepare(Swept(s, p), q, act)
    ensures act.CheckPart? ==> DoCheckPart(Swept(s, p), q) == Swept(DoCheckPart(s, q), p)
    ensures act.AppendPart? ==> DoAppendPart(Swept(s, p), q) == Swept(DoAppendPart(s, q), p)
  {
    SweptEtag(s, Part(s.procs[q].origin.upload, s.procs[q].origin.list[|s.procs[q].stage.pieces|].number), p);
    SweptFail(s, q, true, p);
  }

  lemma SweptPrepare(md5: Digest, s: System, q: Pid, act: PrepareAct, p: Pid)
    requires CanPrepare(s, q, act) && q != p && !s.procs[q].dest.Temp?
    ensures CanPrepare(Swept(s, p), q, act)
    ensures DoPrepare(md5, Swept(s, p), q, act) == Swept(DoPrepare(md5, s, q, act), p)
  {
    match act
    case Check => SweptCheck(s, q, p);
    case CheckPart => SweptGather(s, q, act, p);
    case AppendPart => SweptGather(s, q, act, p);
    case Tag => SweptFail(s, q, false, p);
    case _ =>
  }

  lemma SweptLock(s: System, q: Pid, act: CommitAct, p: Pid)
    requires CanCommit(s, q, act) && q != p && s.procs[q].dest.Object?
    requires act.OpenLock? || act.UnlinkLock?
    ensures CanCommit(Swept(s, p), q, act)
    ensures DoCommit(Swept(s, p), q, act) == Swept(DoCommit(s, q, act), p)
  {
    var lock := LockPath(s.procs[q].dest.key);
    assert s.dir - {Temp(p)} - {lock} == s.dir - {lock} - {Temp(p)};
    if act.OpenLock? {
      assert (s.dir - {Temp(p)})[lock := act.ino] == s.dir[lock := act.ino] - {Temp(p)};
    }
  }

  lemma SweptRename(s: System, q: Pid, act: CommitAct, p: Pid)
    requires CanCommit(s, q, act) && q != p && !s.procs[q].dest.Temp?
    requires act.Rename? || act.RenameNoReplace? || act.RenameLocked?
    ensures CanCommit(Swept(s, p), q, act)
    ensures DoCommit(Swept(s, p), q, act) == Swept(DoCommit(s, q, act), p)
  {
    SweptFail(s, q, act.RenameNoReplace?, p);
    if Temp(q) in s.dir {
      SweptPublish(s, q, DoCommit(s, q, act).procs[q].stage, p);
    }
  }

  lemma SweptCommit(s: System, q: Pid, act: CommitAct, p: Pid)
    requires CanCommit(s, q, act) && q != p && !s.procs[q].dest.Temp?
    ensures CanCommit(Swept(s, p), q, act)
    ensures DoCommit(Swept(s, p), q, act) == Swept(DoCommit(s, q, act), p)
  {
    match act
    case OpenLock(_) => SweptLock(s, q, act, p);
    case UnlinkLock => SweptLock(s, q, act, p);
    case Recheck =>
      SweptEtag(s, s.procs[q].dest, p);
      SweptFail(s, q, false, p);
    case Abort(cleaned) => SweptFail(s, q, cleaned, p);
    case Flock =>
    case Release =>
    case _ => SweptRename(s, q, act, p);
  }

  lemma SweptBegin(s: System, q: Pid, act: BeginAct, p: Pid)
    requires CanBegin(s, q, act) && q != p
    ensures CanBegin(Swept(s, p), q, act) && DoBegin(Swept(s, p), q, act) == Swept(DoBegin(s, q, act), p)
  {
    if !act.Open? {
      assert (s.dir - {Temp(p)})[Temp(q) := act.ino] == s.dir[Temp(q) := act.ino] - {Temp(p)};
    }
    match act
    case Copy(src, _, _) => SweptEtag(s, Object(src), p);
    case Open(key) => SweptEtag(s, Object(key), p);
    case _ =>
  }

  lemma SweptName(s: System, act: NameAct, p: Pid)
    requires CanName(s, act)
    ensures CanName(Swept(s, p), act) && DoName(Swept(s, p), act) == Swept(DoName(s, act), p)
  {
    match act
    case Move(src, dst) => SweptMove(s.dir, Object(src), Object(dst), Temp(p));
    case Delete(key) => assert s.dir - {Temp(p)} - {Object(key)} == s.dir - {Object(key)} - {Temp(p)};
    case Sweep(owner) => assert s.dir - {Temp(p)} - {Temp(owner)} == s.dir - {Temp(owner)} - {Temp(p)};
    case Reap(path) => assert s.dir - {Temp(p)} - {path} == s.dir - {path} - {Temp(p)};
  }

  /** Sweeping and any step commute. */
  lemma SweptStep(md5: Digest, s: System, a: Step, p: Pid)
    requires WellFormed(md5, s) && Gone(s, p) && Can(s, a)
    ensures Can(Swept(s, p), a) && Do(md5, Swept(s, p), a) == Swept(Do(md5, s, a), p)
    ensures Gone(Do(md5, s, a), p)
  {
    UsedGrows(md5, s, a);
    StepFrame(md5, s, a);
    match a
    case Begins(q, act) => SweptBegin(s, q, act, p);
    case Prepares(q, act) =>
      assert WriterOk(md5, s, q);
      SweptPrepare(md5, s, q, act, p);
    case Commits(q, act) =>
      assert WriterOk(md5, s, q);
      SweptCommit(s, q, act, p);
    case Names(act) => SweptName(s, act, p);
    case _ =>
  }

  /**
   * The temp file of a process that is gone is garbage: whether it is swept or not, every run can go on
   * in the same way and ends in the same state but for that one name.
   */
  lemma {:induction false} SweepIsInvisible(md5: Digest, s: System, steps: seq<Step>, p: Pid)
    requires WellFormed(md5, s) && Gone(s, p) && Legal(md5, s, steps)
    ensures Legal(md5, Swept(s, p), steps)
    ensures Run(md5, Swept(s, p), steps) == Swept(Run(md5, s, steps), p)
    ensures forall path: Path :: !path.Temp? ==>
              (path in Run(md5, Swept(s, p), steps).dir <==> path in Run(md5, s, steps).dir)
    decreases |steps|
  {
    if steps == [] {
    } else {
      SweptStep(md5, s, steps[0], p);
      StepKeepsWellFormed(md5, s, steps[0]);
      SweepIsInvisible(md5, Do(md5, s, steps[0]), steps[1..], p);
    }
  }
}
