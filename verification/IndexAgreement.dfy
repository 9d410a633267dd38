/**
 * The order in which handlers change the file system and the listing index.
 *
 * Handlers of one bucket as a state machine: each runs one effect at a time, handlers interleave
 * freely, any call may fail, and the machine may crash anywhere. The index holds keys as clients
 * spell them, the file system the paths they resolve to.
 */
module IndexAgreement {
  import opened Types
  import opened FileTree
  import opened KeyPaths
  import opened Keys
  import ListingIndex
  import Reconcile

  type Key = bytes

  type Pid = int

  datatype Stage = Started | FirstDone | SecondDone

  /**
   * `Put` also stands for copy: the file appears, then its entry. A completed upload's file appears under
   * the key it was initiated for, and its entry under the key of the request; `None` is another bucket.
   */
  datatype Handler =
    | Put(key: Key, stage: Stage)
    | Complete(at: Option<Key>, named: Option<Key>, stage: Stage)
    | Delete(key: Key, stage: Stage)
    | Patch(src: Key, dst: Key, stage: Stage)

  /**
   * `files` and `dirs` are resolved paths. `unsettled` is history: keys on which a call failed
   * half-way or a crash struck, and which no later call has put right.
   */
  datatype State = State(files: set<Key>, dirs: set<Key>, index: set<Key>, running: map<Pid, Handler>,
                         unsettled: set<Key>)

  datatype Step =
    | Begin(pid: Pid, handler: Handler)
    | Advance(pid: Pid)
    | FailNow(pid: Pid)
    | Lock(pid: Pid)
    | Unlock(pid: Pid)
    | Mkdir(key: Key)
    | StrayWrite(key: Key)          // a part sent under an upload name that leads into the bucket
    | StrayRemove(key: Key)         // a file taken by an abort of such a name
    | Crash
    | Restart(strays: set<Key>)     // entries with keys no call accepts that lead to something all the same

  /** ".lock" */
  const LOCK: bytes := [0x2E, 0x6C, 0x6F, 0x63, 0x6B]

  predicate IsLock(k: Key) {
    EndsWith(k, LOCK)
  }

  function LockFile(key: Key): Key {
    Resolve(key) + LOCK
  }

  function KeysOf(o: Option<Key>): set<Key> {
    if o.Some? then {o.value} else {}
  }

  function Touches(h: Handler): set<Key> {
    match h
    case Put(key, _) => {key}
    case Complete(at, named, _) => KeysOf(at) + KeysOf(named)
    case Delete(key, _) => {key}
    case Patch(src, dst, _) => {src, dst}
  }

  predicate Touched(s: State, k: Key) {
    exists p :: p in s.running && k in Touches(s.running[p])
  }

  /** Handlers on a common key do not overlap. */
  ghost predicate Apart(s: State, h: Handler) {
    forall p :: p in s.running ==> Touches(s.running[p]) !! Touches(h)
  }

  // ---- Moving files and directories ----

  predicate Under(f: Key, dir: Key) {
    dir + [SLASH] <= f
  }

  /** Where a path is after its ancestor `from` has been renamed to `to`. */
  function Relocate(f: Key, from: Key, to: Key): Key {
    if Under(f, from) then to + f[|from|..] else f
  }

  /** No ancestor of the path is a file. */
  predicate NoFileAbove(s: State, path: Key) {
    forall f :: f in s.files ==> !Under(path, f)
  }

  /** rename(2) with a file as its source. */
  predicate CanMoveFile(s: State, src: Key, dst: Key) {
    Accepted(src) && Accepted(dst) && FileLike(src) && FileLike(dst)
    && Resolve(src) in s.files && Resolve(dst) !in s.dirs && NoFileAbove(s, Resolve(dst))
  }

  /** rename(2) with a directory as its source: the target is itself, absent or an empty directory. */
  predicate CanMoveDir(s: State, src: Key, dst: Key) {
    var a, b := Resolve(src), Resolve(dst);
    && Accepted(src) && Accepted(dst) && a != [] && b != []
    && a in s.dirs && b !in s.files && !Under(b, a) && NoFileAbove(s, b)
    && (a == b || forall f :: f in s.files + s.dirs ==> !Under(f, b))
  }

  function MoveFile(s: State, src: Key, dst: Key): State {
    s.(files := s.files - {Resolve(src)} + {Resolve(dst)})
  }

  function MoveDir(s: State, src: Key, dst: Key): State {
    var a, b := Resolve(src), Resolve(dst);
    s.(files := set f | f in s.files :: Relocate(f, a, b),
       dirs := (set d | d in s.dirs :: Relocate(d, a, b)) - {a} + {b})
  }

  /** A file can be renamed to the key's path, its directories being made on the way. */
  predicate CanPlace(s: State, key: Key) {
    Accepted(key) && FileLike(key) && Resolve(key) !in s.dirs && NoFileAbove(s, Resolve(key))
  }

  /** Whether the handler's next effect can succeed; index calls always can. */
  predicate CanAdvance(s: State, h: Handler) {
    match h
    case Put(key, stage) =>
      if stage.Started? then CanPlace(s, key) else stage.FirstDone?
    case Complete(at, _, stage) =>
      if stage.Started? then at.Some? ==> CanPlace(s, at.value) else stage.FirstDone?
    case Delete(key, stage) =>
      if stage.Started? then
        Accepted(key) && Resolve(key) !in s.dirs && NoFileAbove(s, Resolve(key))
        && (Resolve(key) in s.files ==> FileLike(key))
      else stage.FirstDone?
    case Patch(src, dst, stage) =>
      stage.FirstDone? ==> CanMoveFile(s, src, dst) || CanMoveDir(s, src, dst)
  }

  predicate MayLock(s: State, p: Pid) {
    p in s.running && s.running[p].Put? && LockFile(s.running[p].key) !in s.dirs
  }

  predicate Can(s: State, a: Step) {
    match a
    case Begin(p, h) => p !in s.running && h.stage.Started?
    case Advance(p) => p in s.running && CanAdvance(s, s.running[p])
    case FailNow(p) => p in s.running
    case Lock(p) => MayLock(s, p)
    case Unlock(p) => MayLock(s, p)
    case Mkdir(key) => key !in s.files && NoFileAbove(s, key)
    case StrayWrite(key) => key !in s.dirs && NoFileAbove(s, key)
    case StrayRemove(_) => true
    case Crash => true
    case Restart(strays) => s.running == map[] && AreStrays(strays)
  }

  function Finish(s: State, p: Pid): State {
    s.(running := s.running - {p})
  }

  function Continue(s: State, p: Pid, h: Handler): State {
    s.(running := s.running[p := h])
  }

  function DoAdvance(s: State, p: Pid): State
    requires p in s.running
  {
    var h := s.running[p];
    match h
    case Put(key, stage) =>
      if stage.Started? then Continue(s, p, Put(key, FirstDone)).(files := s.files + {Resolve(key)})
      else Finish(s, p).(index := s.index + {key}, unsettled := s.unsettled - {key})
    case Complete(at, named, stage) =>
      if stage.Started? then
        Continue(s, p, Complete(at, named, FirstDone))
        .(files := if at.Some? then s.files + {Resolve(at.value)} else s.files)
      else
        Finish(s, p).(index := s.index + KeysOf(named),
                      unsettled := if at == named then s.unsettled - KeysOf(at) else s.unsettled + Touches(h))
    case Delete(key, stage) =>
      if stage.Started? then Continue(s, p, Delete(key, FirstDone)).(files := s.files - {Resolve(key)})
      else Finish(s, p).(index := s.index - {key}, unsettled := s.unsettled - {key})
    case Patch(src, dst, stage) =>
      if stage.Started? then Continue(s, p, Patch(src, dst, FirstDone)).(index := s.index + {dst})
      else if stage.FirstDone? then
        Continue(if CanMoveFile(s, src, dst) then MoveFile(s, src, dst) else MoveDir(s, src, dst),
                 p, Patch(src, dst, SecondDone))
      else
        Finish(s, p).(index := s.index - {src},
                      unsettled := if src == dst then s.unsettled + {src} else s.unsettled - {src, dst})
  }

  /** The handler returns an error before its next effect, leaving the earlier ones in place. */
  function DoFail(s: State, p: Pid): State
    requires p in s.running
  {
    var h := s.running[p];
    var left := match h
      case Put(key, stage) => if stage.Started? then {} else {key}
      case Complete(at, _, stage) => if stage.Started? then {} else KeysOf(at)
      case Delete(key, stage) => if stage.Started? then {} else {key}
      case Patch(src, dst, stage) =>
        if stage.Started? then {}
        else if stage.FirstDone? then (if dst in s.files then {} else {dst})
        else (if src == dst then {} else {src});
    Finish(s, p).(unsettled := s.unsettled + left)
  }

  function InFlight(running: map<Pid, Handler>): set<Key> {
    set p, k | p in running && k in Touches(running[p]) :: k
  }

  /** What `exists()` says of a key that passes validation. */
  predicate Exists(s: State, k: Key) {
    Accepted(k) && (Resolve(k) in s.dirs || (Resolve(k) in s.files && FileLike(k)))
  }

  /** Keys that no call accepts; one with a leading slash or double dots leads out of the bucket. */
  predicate AreStrays(keys: set<Key>) {
    forall k :: k in keys ==> !Accepted(k) && 0 !in k
  }

  function Do(s: State, a: Step): State
    requires a.Advance? || a.FailNow? || a.Lock? || a.Unlock? ==> a.pid in s.running
    requires a.Lock? || a.Unlock? ==> s.running[a.pid].Put?
  {
    match a
    case Begin(p, h) => Continue(s, p, h)
    case Advance(p) => DoAdvance(s, p)
    case FailNow(p) => DoFail(s, p)
    case Lock(p) => s.(files := s.files + {LockFile(s.running[p].key)})
    case Unlock(p) => s.(files := s.files - {LockFile(s.running[p].key)})
    case Mkdir(key) => s.(dirs := s.dirs + {key})
    case Crash => s.(running := map[], unsettled := s.unsettled + InFlight(s.running))
    case StrayWrite(key) => s.(files := s.files + {key})
    case StrayRemove(key) => s.(files := s.files - {key})
    case Restart(strays) =>
      var index := s.files + set k | k in s.index && (Exists(s, k) || k in strays);
      s.(index := index, unsettled := index - s.files)
  }

  // ---- Runs that respect the layout ----

  /** The names a client should keep to. */
  predicate Proper(k: Key) {
    Canonical(k) && !IsLock(k)
  }

  /**
   * Canonical keys that are no lock files, no overlap on a key, no PATCH of a directory, uploads completed
   * under their own keys, and no upload name that leads into the bucket.
   */
  ghost predicate Tame(s: State, a: Step) {
    match a
    case Begin(p, h) =>
      Apart(s, h) && (h.Complete? ==> h.at == h.named) && forall k :: k in Touches(h) ==> Proper(k)
    case Advance(p) =>
      p in s.running && s.running[p].Patch? && s.running[p].stage.FirstDone? ==> Resolve(s.running[p].src) !in s.dirs
    case StrayWrite(_) => false
    case StrayRemove(_) => false
    case _ => true
  }

  predicate Agrees(s: State, k: Key) {
    k in s.index <==> k in s.files
  }

  ghost predicate HandlerOk(s: State, h: Handler) {
    && (forall k :: k in Touches(h) ==> Proper(k))
    && match h
       case Put(key, stage) =>
         if stage.Started? then key !in s.unsettled ==> Agrees(s, key) else key in s.files
       case Complete(at, named, stage) =>
         at == named
         && (at.Some? ==>
               if stage.Started? then at.value !in s.unsettled ==> Agrees(s, at.value) else at.value in s.files)
       case Delete(key, stage) =>
         if stage.Started? then key !in s.unsettled ==> Agrees(s, key) else key !in s.files
       case Patch(src, dst, stage) =>
         && (stage.Started? ==> dst !in s.unsettled ==> Agrees(s, dst))
         && (!stage.SecondDone? && src != dst ==> src !in s.unsettled ==> Agrees(s, src))
         && (!stage.Started? ==> dst in s.index)
         && (stage.SecondDone? ==> dst in s.files && (src != dst ==> src !in s.files))
  }

  /** Lock files aside, every key that no handler is working on and that is settled agrees. */
  ghost predicate Inv(s: State) {
    && s.files !! s.dirs
    && (forall k :: !IsLock(k) && !Touched(s, k) && k !in s.unsettled ==> Agrees(s, k))
    && (forall p, q | p in s.running && q in s.running :: p != q ==> Touches(s.running[p]) !! Touches(s.running[q]))
    && (forall p :: p in s.running ==> HandlerOk(s, s.running[p]))
  }

  /** Only the given keys' entries, files and marks differ. */
  ghost predicate ChangesOnly(s: State, t: State, keys: set<Key>) {
    forall k :: k !in keys ==>
      (k in t.index <==> k in s.index) && (k in t.files <==> k in s.files) && (k in t.unsettled <==> k in s.unsettled)
  }

  /** Handlers apart from the changed keys notice nothing. */
  lemma OthersUndisturbed(s: State, t: State, keys: set<Key>, h: Handler)
    requires HandlerOk(s, h) && ChangesOnly(s, t, keys) && Touches(h) !! keys
    ensures HandlerOk(t, h)
  {
    match h {
      case Patch(src, dst, _) => assert src in Touches(h) && dst in Touches(h);
      case Put(key, _) => assert key in Touches(h);
      case Complete(at, _, _) => assert at.Some? ==> at.value in Touches(h);
      case Delete(key, _) => assert key in Touches(h);
    }
  }

  /** One handler moves on or ends. */
  lemma LocalKeepsInv(s: State, t: State, p: Pid)
    requires Inv(s) && p in s.running && t.files !! t.dirs && t.dirs == s.dirs
    requires ChangesOnly(s, t, Touches(s.running[p]))
    requires p in t.running ==>
               t.running == s.running[p := t.running[p]] && Touches(t.running[p]) == Touches(s.running[p])
               && HandlerOk(t, t.running[p])
    requires p !in t.running ==>
               t.running == s.running - {p}
               && forall k :: k in Touches(s.running[p]) && k !in t.unsettled ==> Agrees(t, k)
    ensures Inv(t)
  {
    var h := s.running[p];
    forall q | q in t.running && q != p ensures HandlerOk(t, t.running[q]) {
      OthersUndisturbed(s, t, Touches(h), s.running[q]);
    }
    assert p in t.running ==> forall k :: k in Touches(h) ==> Touched(t, k);
    forall k | !IsLock(k) && !Touched(t, k) && k !in t.unsettled ensures Agrees(t, k) {
      if k !in Touches(h) {
        forall q | q in s.running ensures k !in Touches(s.running[q]) {
          assert q != p ==> q in t.running;
        }
        assert !Touched(s, k);
      }
    }
  }

  lemma PatchKeepsInv(s: State, p: Pid)
    requires Inv(s) && Can(s, Advance(p)) && Tame(s, Advance(p)) && s.running[p].Patch?
    ensures Inv(DoAdvance(s, p))
  {
    var h := s.running[p];
    assert HandlerOk(s, h);
    assert h.src in Touches(h) && h.dst in Touches(h);
    LocalKeepsInv(s, DoAdvance(s, p), p);
  }

  lemma AdvanceKeepsInv(s: State, p: Pid)
    requires Inv(s) && Can(s, Advance(p)) && Tame(s, Advance(p))
    ensures Inv(DoAdvance(s, p))
  {
    var h := s.running[p];
    if h.Patch? {
      PatchKeepsInv(s, p);
    } else {
      assert HandlerOk(s, h);
      assert forall k :: k in Touches(h) ==> Resolve(k) == k;
      LocalKeepsInv(s, DoAdvance(s, p), p);
    }
  }

  lemma FailKeepsInv(s: State, p: Pid)
    requires Inv(s) && p in s.running
    ensures Inv(DoFail(s, p))
  {
    assert HandlerOk(s, s.running[p]);
    LocalKeepsInv(s, DoFail(s, p), p);
  }

  lemma BeginKeepsInv(s: State, p: Pid, h: Handler)
    requires Inv(s) && Can(s, Begin(p, h)) && Tame(s, Begin(p, h))
    ensures Inv(Continue(s, p, h))
  {
    var t := Continue(s, p, h);
    forall k | k in Touches(h) && k !in s.unsettled ensures Agrees(s, k) {
      assert !Touched(s, k);
    }
    forall q | q in t.running ensures HandlerOk(t, t.running[q]) {
      if q != p {
        assert HandlerOk(s, s.running[q]);
        OthersUndisturbed(s, t, {}, s.running[q]);
      } else {
        match h {
          case Patch(src, dst, _) => assert src in Touches(h) && dst in Touches(h);
          case Put(key, _) => assert key in Touches(h);
          case Complete(at, _, _) => assert at.Some? ==> at.value in Touches(h);
          case Delete(key, _) => assert key in Touches(h);
        }
      }
    }
    forall k | !Touched(t, k) ensures !Touched(s, k) {
      forall q | q in s.running ensures k !in Touches(s.running[q]) {
        assert q in t.running && t.running[q] == s.running[q];
      }
    }
  }

  lemma CrashKeepsInv(s: State)
    requires Inv(s)
    ensures Inv(Do(s, Crash))
  {
    var t := Do(s, Crash);
    forall k | k !in t.unsettled ensures !Touched(s, k) {
      forall p | p in s.running ensures k !in Touches(s.running[p]) {
        assert k !in InFlight(s.running);
      }
    }
  }

  lemma MkdirKeepsInv(s: State, key: Key)
    requires Inv(s) && Can(s, Mkdir(key))
    ensures Inv(Do(s, Mkdir(key)))
  {
    var t := Do(s, Mkdir(key));
    forall k | !Touched(t, k) ensures !Touched(s, k) {
      forall q | q in s.running ensures k !in Touches(s.running[q]) {
        assert q in t.running;
      }
    }
    forall q | q in t.running ensures HandlerOk(t, t.running[q]) {
      OthersUndisturbed(s, t, {}, s.running[q]);
    }
  }

  lemma LockFileIsLock(key: Key)
    ensures IsLock(LockFile(key))
  {
    assert LockFile(key)[|Resolve(key)|..] == LOCK;
  }

  /** Lock files come and go without touching anything that counts. */
  lemma LockKeepsInv(s: State, a: Step)
    requires Inv(s) && Can(s, a) && (a.Lock? || a.Unlock?)
    ensures Inv(Do(s, a))
  {
    var t := Do(s, a);
    var lock := LockFile(s.running[a.pid].key);
    LockFileIsLock(s.running[a.pid].key);
    forall q | q in t.running ensures HandlerOk(t, t.running[q]) {
      assert HandlerOk(s, s.running[q]);
      assert lock !in Touches(s.running[q]);
      OthersUndisturbed(s, t, {lock}, s.running[q]);
    }
    forall k | !Touched(t, k) ensures !Touched(s, k) {
      forall q | q in s.running ensures k !in Touches(s.running[q]) {
        assert q in t.running;
      }
    }
  }

  lemma StepKeepsInv(s: State, a: Step)
    requires Inv(s) && Can(s, a) && Tame(s, a)
    ensures Inv(Do(s, a))
  {
    match a
    case Begin(p, h) => BeginKeepsInv(s, p, h);
    case Advance(p) => AdvanceKeepsInv(s, p);
    case FailNow(p) => FailKeepsInv(s, p);
    case Lock(_) => LockKeepsInv(s, a);
    case Unlock(_) => LockKeepsInv(s, a);
    case Mkdir(key) => MkdirKeepsInv(s, key);
    case Crash => CrashKeepsInv(s);
    case Restart(_) =>
  }

  predicate Legal(s: State, steps: seq<Step>)
    decreases |steps|
  {
    steps == [] || (Can(s, steps[0]) && Legal(Do(s, steps[0]), steps[1..]))
  }

  function Run(s: State, steps: seq<Step>): State
    requires Legal(s, steps)
    decreases |steps|
  {
    if steps == [] then s else Run(Do(s, steps[0]), steps[1..])
  }

  ghost predicate TameRun(s: State, steps: seq<Step>)
    requires Legal(s, steps)
    decreases |steps|
  {
    steps == [] || (Tame(s, steps[0]) && TameRun(Do(s, steps[0]), steps[1..]))
  }

  /**
   * In every run that keeps to canonical keys, does not overlap on a key and moves no directory: lock
   * files aside, a key that no handler is working on and no failure has left unsettled is in the index
   * exactly when its file exists.
   */
  lemma {:induction false} SettledKeysAgree(s: State, steps: seq<Step>)
    requires Inv(s) && Legal(s, steps) && TameRun(s, steps)
    ensures var t := Run(s, steps);
            Inv(t) && forall k :: !IsLock(k) && !Touched(t, k) && k !in t.unsettled ==> (k in t.index <==> k in t.files)
    decreases |steps|
  {
    if steps == [] {
    } else {
      StepKeepsInv(s, steps[0]);
      SettledKeysAgree(Do(s, steps[0]), steps[1..]);
    }
  }

  /** While an object moves to another key, the key it is at is in the index at every step. */
  lemma MoveNeverHidesTheObject(s: State, steps: seq<Step>, p: Pid)
    requires Inv(s) && Legal(s, steps) && TameRun(s, steps)
    requires p in Run(s, steps).running && Run(s, steps).running[p].Patch?
    requires var h := Run(s, steps).running[p]; h.src != h.dst && h.src !in Run(s, steps).unsettled
    ensures var t := Run(s, steps);
            var h := t.running[p];
            if h.stage.SecondDone? then h.src !in t.files && h.dst in t.files && h.dst in t.index
            else h.src in t.files ==> h.src in t.index
  {
    SettledKeysAgree(s, steps);
    assert HandlerOk(Run(s, steps), Run(s, steps).running[p]);
  }

  // ---- Runs without failures ----

  /** No error after a first effect, no crash, and no move of a key onto itself. */
  predicate Smooth(s: State, a: Step) {
    match a
    case Begin(_, h) => h.Patch? ==> h.src != h.dst
    case FailNow(p) => p in s.running && s.running[p].stage.Started?
    case Crash => false
    case Restart(_) => false
    case _ => true
  }

  ghost predicate NoSelfMoves(s: State) {
    forall p :: p in s.running && s.running[p].Patch? ==> s.running[p].src != s.running[p].dst
  }

  ghost predicate SmoothRun(s: State, steps: seq<Step>)
    requires Legal(s, steps)
    decreases |steps|
  {
    steps == [] || (Smooth(s, steps[0]) && SmoothRun(Do(s, steps[0]), steps[1..]))
  }

  /** Without failures half-way, lock files aside, every key outside a running handler agrees at all times. */
  lemma {:induction false} SmoothRunsStaySettled(s: State, steps: seq<Step>)
    requires Inv(s) && s.unsettled == {} && NoSelfMoves(s)
    requires Legal(s, steps) && TameRun(s, steps) && SmoothRun(s, steps)
    ensures var t := Run(s, steps);
            t.unsettled == {} && forall k :: !IsLock(k) && !Touched(t, k) ==> (k in t.index <==> k in t.files)
    decreases |steps|
  {
    if steps == [] {
    } else {
      StepKeepsInv(s, steps[0]);
      SmoothRunsStaySettled(Do(s, steps[0]), steps[1..]);
    }
  }

  // ---- Recovery ----

  /**
   * A crash at any step followed by reconciling restores agreement on every key, lock files included,
   * exactly when no index entry leads to a directory, out of the bucket, or to a file by another spelling.
   */
  lemma CrashThenRestart(s: State, strays: set<Key>)
    requires Inv(s) && AreStrays(strays)
    ensures var t := Do(Do(s, Crash), Restart(strays));
            var clean := forall k :: k in s.index && (Exists(s, k) || k in strays) ==> k in s.files;
            && t.files == s.files
            && ((forall k :: k in t.index <==> k in t.files) <==> clean)
            && (clean ==> Inv(t) && t.unsettled == {})
  {
    CrashKeepsInv(s);
    var u := Do(s, Crash);
    StepKeepsInv(u, Restart(strays));
    forall k ensures Exists(u, k) <==> Exists(s, k) {
    }
    var t := Do(u, Restart(strays));
    if k :| k in s.index && (Exists(s, k) || k in strays) && k !in s.files {
      assert k in t.index && k !in t.files;
    }
  }

  /** The state describes bucket `b` of the tree and of the index. */
  ghost predicate Describes(s: State, entries: set<bytes>, root: seq<Entry>, b: bytes) {
    forall path :: ValidPath(path) ==>
      var found := Lookup(root, [b] + path);
      && (Join(path) in s.files <==> found == Some(File))
      && (Join(path) in s.dirs <==> found.Some? && found.value.Dir?)
      && (Join(path) in s.index <==> ListingIndex.Encode(b, Join(path)) in entries)
  }

  /** The restart step is what reconciling the whole index does to this bucket. */
  lemma RestartIsReconcile(s: State, strays: set<Key>, entries: set<bytes>, root: seq<Entry>,
      probe: ListingIndex.Probe, b: bytes, path: seq<bytes>)
    requires ValidEntries(root) && Reconcile.Faithful(probe, root) && Reconcile.ValidBucket(b) && ValidPath(path)
    requires Describes(s, entries, root, b) && AreStrays(strays)
    ensures Join(path) in Do(s, Restart(strays)).index <==>
            ListingIndex.Encode(b, Join(path)) in ListingIndex.Reconciled(entries, root, probe)
  {
    var e := ListingIndex.Encode(b, Join(path));
    assert Reconcile.IsEntryOf(e, b, path);
    PathResolves(path);
    PathIsAccepted(path);
    Reconcile.OldEntrySurvives(e, root, probe);
    Reconcile.WalkedIsFiles(root, e);
    Reconcile.NamesFileAt(root, e, b, path);
    Reconcile.NamesDirectoryAt(root, e, b, path);
  }
}
