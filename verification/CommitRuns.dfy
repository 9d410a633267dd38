/** Building concrete runs of the commit protocol, one step or one call at a time. */
module CommitRuns {
  import opened Types
  import opened Etags
  import opened CommitProtocol
  import opened CompareAndSwap
  import opened GuardedSwap

  lemma {:induction false} RunThen(md5: Digest, s: System, a: seq<Step>, b: seq<Step>)
    requires Legal(md5, s, a) && Legal(md5, Run(md5, s, a), b)
    ensures Legal(md5, s, a + b) && Run(md5, s, a + b) == Run(md5, Run(md5, s, a), b)
    decreases |a|
  {
    if a == [] {
      assert a + b == b;
    } else {
      RunThen(md5, Do(md5, s, a[0]), a[1..], b);
      assert (a + b)[1..] == a[1..] + b;
    }
  }

  lemma RunOne(md5: Digest, s: System, a: Step)
    requires Can(s, a)
    ensures Legal(md5, s, [a]) && Run(md5, s, [a]) == Do(md5, s, a)
  {
    assert Legal(md5, Do(md5, s, a), []);
  }

  /** The steps lead from one state to another. */
  ghost predicate Leads(md5: Digest, from: System, steps: seq<Step>, s: System) {
    Legal(md5, from, steps) && Run(md5, from, steps) == s
  }

  lemma LeadsNowhere(md5: Digest, s: System)
    ensures Leads(md5, s, [], s)
    ensures forall k :: GuardedRun(md5, s, [], k)
  {
  }

  /** Every name leads to an inode. */
  ghost predicate NoDangling(s: System) {
    forall path :: path in s.dir ==> s.dir[path] in s.heap
  }

  ghost predicate OnlyProcessSteps(steps: seq<Step>) {
    forall a :: a in steps ==> !a.Names? && !a.Crash?
  }

  /** A step of the discipline: a conditional writer, on the lock file at the lock path. */
  predicate Disciplined(s: System, a: Step, k: Key) {
    GuardedStep(a, k) && (IsFlock(s, a, k) ==> Current(s, k, s.procs[a.pid].stage.lock))
  }

  predicate IsMismatch(s: System, a: Step, k: Key) {
    IsSwap(s, a, k)
    && !(s.procs[a.pid].cond.IfMatch? && CheckPasses(s, Object(k), s.procs[a.pid].cond.expected))
  }

  lemma {:induction false} GuardedSnoc(md5: Digest, from: System, steps: seq<Step>, a: Step, k: Key)
    requires Legal(md5, from, steps) && Can(Run(md5, from, steps), a) && Legal(md5, from, steps + [a])
    ensures GuardedRun(md5, from, steps + [a], k) <==>
            GuardedRun(md5, from, steps, k) && Disciplined(Run(md5, from, steps), a, k)
    ensures SwapsMatch(md5, from, steps + [a], k) <==>
            SwapsMatch(md5, from, steps, k) && !IsMismatch(Run(md5, from, steps), a, k)
    decreases |steps|
  {
    if steps == [] {
      assert [a][1..] == [];
      assert SwapsMatch(md5, Do(md5, from, a), [], k) && GuardedRun(md5, Do(md5, from, a), [], k);
    } else {
      assert (steps + [a])[1..] == steps[1..] + [a];
      GuardedSnoc(md5, Do(md5, from, steps[0]), steps[1..], a, k);
    }
  }

  /** One more step. */
  lemma LeadsOn(md5: Digest, from: System, steps: seq<Step>, s: System, a: Step)
    returns (more: seq<Step>, t: System)
    requires Leads(md5, from, steps, s) && Can(s, a)
    ensures t == Do(md5, s, a) && more == steps + [a] && Leads(md5, from, more, t)
    ensures OnlyProcessSteps(steps) && !a.Names? && !a.Crash? ==> OnlyProcessSteps(more)
    ensures forall k :: GuardedRun(md5, from, more, k) <==> GuardedRun(md5, from, steps, k) && Disciplined(s, a, k)
    ensures forall k :: SwapsMatch(md5, from, more, k) <==> SwapsMatch(md5, from, steps, k) && !IsMismatch(s, a, k)
  {
    t := Do(md5, s, a);
    more := steps + [a];
    RunOne(md5, s, a);
    RunThen(md5, from, steps, [a]);
    forall k
      ensures GuardedRun(md5, from, more, k) <==> GuardedRun(md5, from, steps, k) && Disciplined(s, a, k)
      ensures SwapsMatch(md5, from, more, k) <==> SwapsMatch(md5, from, steps, k) && !IsMismatch(s, a, k)
    {
      GuardedSnoc(md5, from, steps, a, k);
    }
  }

  // ---- An upload up to its commit ----

  /** The store with one more upload under way. */
  function Begun(s: System, p: Pid, key: Key, body: bytes, cond: Condition, ino: Ino, sent: bytes,
      stage: Stage): System {
    s.(heap := s.heap[ino := Inode(p, sent, false, None)],
       dir := s.dir[Temp(p) := ino],
       procs := s.procs[p := Writer(Object(key), body, cond, Upload, ino, "", stage)],
       used := s.used + {p})
  }

  /** The store with one more upload that has reached `stage`. */
  function WithUpload(md5: Digest, s: System, p: Pid, key: Key, body: bytes, cond: Condition, ino: Ino,
      stage: Stage): System {
    var etag := EtagOf(md5, body);
    s.(heap := s.heap[ino := Inode(p, body, !stage.Streamed?, if stage.Tagged? then Some(etag) else None)],
       dir := s.dir[Temp(p) := ino],
       procs := s.procs[p := Writer(Object(key), body, cond, Upload, ino, etag, stage)],
       used := s.used + {p},
       finished := s.finished + {Version(body, etag)})
  }

  lemma SentUpload(md5: Digest, s: System, p: Pid, key: Key, body: bytes, cond: Condition, ino: Ino)
    ensures var u := Begun(s, p, key, body, cond, ino, [], Streaming(0));
            var v := Begun(s, p, key, body, cond, ino, body, Streaming(|body|));
            && (body == [] ==> u == v)
            && (body != [] ==> CanPrepare(u, p, Chunk(|body|)) && DoPrepare(md5, u, p, Chunk(|body|)) == v)
  {
    assert [] + body[0..|body|] == body;
  }

  lemma StreamedUpload(md5: Digest, s: System, p: Pid, key: Key, body: bytes, cond: Condition, ino: Ino)
    ensures var v := Begun(s, p, key, body, cond, ino, body, Streaming(|body|));
            CanPrepare(v, p, EndStream)
            && DoPrepare(md5, v, p, EndStream) == WithUpload(md5, s, p, key, body, cond, ino, Streamed)
  {
  }

  lemma SyncedUpload(md5: Digest, s: System, p: Pid, key: Key, body: bytes, cond: Condition, ino: Ino)
    ensures var u := WithUpload(md5, s, p, key, body, cond, ino, Streamed);
            CanPrepare(u, p, Sync)
            && DoPrepare(md5, u, p, Sync) == WithUpload(md5, s, p, key, body, cond, ino, Synced)
  {
  }

  lemma CheckedUpload(md5: Digest, s: System, p: Pid, key: Key, body: bytes, cond: Condition, ino: Ino)
    requires ino !in s.heap && (Object(key) in s.dir ==> s.dir[Object(key)] in s.heap)
    requires cond.IfMatch? ==> CheckPasses(s, Object(key), cond.expected)
    ensures var u := WithUpload(md5, s, p, key, body, cond, ino, Synced);
            CanPrepare(u, p, Check)
            && DoPrepare(md5, u, p, Check) == WithUpload(md5, s, p, key, body, cond, ino, Ready)
  {
    var u := WithUpload(md5, s, p, key, body, cond, ino, Synced);
    assert EtagAt(u, Object(key)) == EtagAt(s, Object(key));
  }

  lemma TaggedUpload(md5: Digest, s: System, p: Pid, key: Key, body: bytes, cond: Condition, ino: Ino)
    ensures var u := WithUpload(md5, s, p, key, body, cond, ino, Ready);
            CanPrepare(u, p, Tag)
            && DoPrepare(md5, u, p, Tag) == WithUpload(md5, s, p, key, body, cond, ino, Tagged)
  {
  }

  lemma LeadsThroughStream(md5: Digest, from: System, steps: seq<Step>, s: System,
      p: Pid, key: Key, body: bytes, cond: Condition, ino: Ino)
    returns (more: seq<Step>, t: System)
    requires Leads(md5, from, steps, s)
    requires p !in s.used && ino !in s.heap
    ensures t == WithUpload(md5, s, p, key, body, cond, ino, Streamed) && Leads(md5, from, more, t)
    ensures OnlyProcessSteps(steps) ==> OnlyProcessSteps(more)
    ensures GuardedRun(md5, from, steps, key) && !cond.Plain? ==> GuardedRun(md5, from, more, key)
  {
    more, t := LeadsOn(md5, from, steps, s, Begins(p, Put(key, body, cond, ino)));
    assert t == Begun(s, p, key, body, cond, ino, [], Streaming(0));
    SentUpload(md5, s, p, key, body, cond, ino);
    StreamedUpload(md5, s, p, key, body, cond, ino);
    if body != [] {
      more, t := LeadsOn(md5, from, more, t, Prepares(p, Chunk(|body|)));
    }
    more, t := LeadsOn(md5, from, more, t, Prepares(p, EndStream));
  }

  /** A whole upload up to its attributes. */
  lemma LeadsThroughUpload(md5: Digest, from: System, steps: seq<Step>, s: System,
      p: Pid, key: Key, body: bytes, cond: Condition, ino: Ino)
    returns (more: seq<Step>, t: System)
    requires Leads(md5, from, steps, s)
    requires p !in s.used && ino !in s.heap
    requires Object(key) in s.dir ==> s.dir[Object(key)] in s.heap
    requires cond.IfMatch? ==> CheckPasses(s, Object(key), cond.expected)
    ensures t == WithUpload(md5, s, p, key, body, cond, ino, Tagged) && Leads(md5, from, more, t)
    ensures OnlyProcessSteps(steps) ==> OnlyProcessSteps(more)
    ensures GuardedRun(md5, from, steps, key) && !cond.Plain? ==> GuardedRun(md5, from, more, key)
  {
    more, t := LeadsThroughStream(md5, from, steps, s, p, key, body, cond, ino);
    SyncedUpload(md5, s, p, key, body, cond, ino);
    more, t := LeadsOn(md5, from, more, t, Prepares(p, Sync));
    CheckedUpload(md5, s, p, key, body, cond, ino);
    more, t := LeadsOn(md5, from, more, t, Prepares(p, Check));
    TaggedUpload(md5, s, p, key, body, cond, ino);
    more, t := LeadsOn(md5, from, more, t, Prepares(p, Tag));
  }

  // ---- An If-Match commit ----

  /** From the tagged temp file to the passed re-check, on the lock file at hand or on a new one. */
  function LockVerified(s: System, p: Pid, key: Key, unused: Ino): System
    requires IsWriter(s, p)
  {
    var there := LockPath(key) in s.dir;
    var lock := if there then s.dir[LockPath(key)] else unused;
    s.(heap := if there then s.heap else s.heap[unused := Inode(p, [], false, None)],
       dir := if there then s.dir else s.dir[LockPath(key) := unused],
       flocks := s.flocks[lock := p],
       procs := s.procs[p := s.procs[p].(stage := Verified(lock))])
  }

  lemma LeadsThroughLock(md5: Digest, from: System, steps: seq<Step>, s: System, p: Pid, key: Key, unused: Ino)
    returns (more: seq<Step>, t: System)
    requires Leads(md5, from, steps, s) && Member(s, p, key)
    requires s.procs[p].stage.Tagged? && s.procs[p].cond.IfMatch? && LockPath(key) != Object(key)
    requires unused !in s.heap && unused !in s.flocks
    requires LockPath(key) in s.dir ==> s.dir[LockPath(key)] !in s.flocks
    requires CheckPasses(s, Object(key), s.procs[p].cond.expected)
    ensures t == LockVerified(s, p, key, unused) && Leads(md5, from, more, t)
    ensures OnlyProcessSteps(steps) ==> OnlyProcessSteps(more)
    ensures GuardedRun(md5, from, steps, key) ==> GuardedRun(md5, from, more, key)
  {
    more, t := LeadsOn(md5, from, steps, s, Commits(p, OpenLock(unused)));
    more, t := LeadsOn(md5, from, more, t, Commits(p, Flock));
    more, t := LeadsOn(md5, from, more, t, Commits(p, Recheck));
    assert t.procs == LockVerified(s, p, key, unused).procs;
  }

  lemma LeadsThroughSwap(md5: Digest, from: System, steps: seq<Step>, s: System, p: Pid, key: Key)
    returns (more: seq<Step>, t: System)
    requires Leads(md5, from, steps, s) && Member(s, p, key) && s.procs[p].stage.Verified? && Temp(p) in s.dir
    ensures Leads(md5, from, more, t)
    ensures OnlyProcessSteps(steps) ==> OnlyProcessSteps(more)
    ensures forall k :: SwapsMatch(md5, from, more, k) ==>
              SwapsMatch(md5, from, steps, k) && !IsMismatch(s, Commits(p, RenameLocked), k)
    ensures forall k :: GuardedRun(md5, from, steps, k) ==> GuardedRun(md5, from, more, k)
    ensures t == s.(dir := MovePath(s.dir, Temp(p), Object(key)) - {LockPath(key)},
                    flocks := s.flocks - {s.procs[p].stage.lock},
                    procs := s.procs[p := s.procs[p].(stage := Succeeded)])
  {
    more, t := LeadsOn(md5, from, steps, s, Commits(p, RenameLocked));
    more, t := LeadsOn(md5, from, more, t, Commits(p, UnlinkLock));
    more, t := LeadsOn(md5, from, more, t, Commits(p, Release));
    assert t.procs == s.procs[p := s.procs[p].(stage := Succeeded)];
  }

  /** A quoted etag is no wildcard. */
  lemma EtagIsNoWildcard(md5: Digest, body: bytes)
    ensures !Wildcard(EtagOf(md5, body))
  {
    var hex := HexEncode(md5(body));
    assert |EtagOf(md5, body)| == 2 * |md5(body)| + 2;
  }
}
