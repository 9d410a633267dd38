/**
 * Bucket calls that overlap.
 *
 * Each call is split into its atomic effects: a read misses the cache, reads the attribute and fills
 * the cache; create and update write the attribute and then the cache; delete removes the directory
 * and then the cache entry. The effects of different calls interleave freely.
 */
module CacheRaces {
  import opened Types
  import opened TempFile
  import opened BucketAccess

  type Pid = int

  /** What reading a bucket's attribute gives. */
  type Reading = Result<AccessLevel, StorageError>

  /** A level on its way to the cache or in it; `later` is the last attribute write since it was read or written. */
  datatype Level = Level(level: AccessLevel, later: Option<Reading>) {
    /** The reading that the level and the writes after it lead one to expect. */
    function Expected(): Reading {
      if later.Some? then later.value else Ok(level)
    }
  }

  datatype Call =
    | Missed(name: string)                       // not in the cache, attribute not read yet
    | Filling(name: string, found: Level)        // attribute read, cache not filled yet
    | Setting(name: string, access: AccessLevel) // directory there, attribute not written yet
    | Inserting(name: string, found: Level)      // attribute written, cache not yet
    | Dropping(name: string)                     // directory removed, cache entry not yet

  datatype State = State(dirs: Dirs, cache: map<string, Level>, calls: map<Pid, Call>)

  datatype Step =
    | Miss(pid: Pid, name: string)
    | ReadAttr(pid: Pid)
    | Fill(pid: Pid)
    | BeginCreate(pid: Pid, name: string, access: AccessLevel)
    | BeginUpdate(pid: Pid, name: string, access: AccessLevel)
    | SetAttr(pid: Pid)
    | FailSet(pid: Pid)
    | Insert(pid: Pid)
    | Rmdir(pid: Pid, name: string)
    | Drop(pid: Pid)
    | Mkdir(name: string)
    | Restart

  predicate Can(s: State, a: Step) {
    match a
    case Miss(p, name) => p !in s.calls && name !in s.cache
    case ReadAttr(p) => p in s.calls && s.calls[p].Missed?
    case Fill(p) => p in s.calls && s.calls[p].Filling?
    case BeginCreate(p, name, _) => p !in s.calls && ValidBucketName(name)
    case BeginUpdate(p, name, _) => p !in s.calls && ValidBucketName(name) && name in s.dirs
    case SetAttr(p) => p in s.calls && s.calls[p].Setting? && s.calls[p].name in s.dirs
    case FailSet(p) => p in s.calls && s.calls[p].Setting?
    case Insert(p) => p in s.calls && s.calls[p].Inserting?
    case Rmdir(p, name) => p !in s.calls && ValidBucketName(name) && name in s.dirs
    case Drop(p) => p in s.calls && s.calls[p].Dropping?
    case Mkdir(_) => true
    case Restart => true
  }

  /** The bucket's attribute has been written or has gone with its directory. */
  function Note(found: Level, reading: Reading): Level {
    found.(later := Some(reading))
  }

  function NoteCall(c: Call, name: string, reading: Reading): Call {
    match c
    case Filling(n, found) => if n == name then Filling(n, Note(found, reading)) else c
    case Inserting(n, found) => if n == name then Inserting(n, Note(found, reading)) else c
    case _ => c
  }

  /** An attribute write: everything in flight or cached for the bucket takes note. */
  function Write(s: State, dirs: Dirs, name: string): State {
    var reading := ReadAccess(dirs, name);
    State(dirs,
          if name in s.cache then s.cache[name := Note(s.cache[name], reading)] else s.cache,
          map p | p in s.calls :: NoteCall(s.calls[p], name, reading))
  }

  function MakeDir(s: State, name: string): State {
    if name in s.dirs then s else Write(s, s.dirs[name := None], name)
  }

  function Finish(s: State, p: Pid): State {
    s.(calls := s.calls - {p})
  }

  function Do(s: State, a: Step): State
    requires Can(s, a)
  {
    match a
    case Miss(p, name) => s.(calls := s.calls[p := Missed(name)])
    case ReadAttr(p) =>
      match ReadAccess(s.dirs, s.calls[p].name) {
        case Err(_) => Finish(s, p)
        case Ok(level) => s.(calls := s.calls[p := Filling(s.calls[p].name, Level(level, None))])
      }
    case Fill(p) => Finish(s, p).(cache := s.cache[s.calls[p].name := s.calls[p].found])
    case BeginCreate(p, name, access) =>
      var t := MakeDir(s, name);
      t.(calls := t.calls[p := Setting(name, access)])
    case BeginUpdate(p, name, access) => s.(calls := s.calls[p := Setting(name, access)])
    case SetAttr(p) =>
      var c := s.calls[p];
      var t := Write(s, SetAccess(s.dirs, c.name, c.access), c.name);
      t.(calls := t.calls[p := Inserting(c.name, Level(c.access, None))])
    case FailSet(p) => Finish(s, p)
    case Insert(p) => Finish(s, p).(cache := s.cache[s.calls[p].name := s.calls[p].found])
    case Rmdir(p, name) =>
      var t := Write(s, s.dirs - {name}, name);
      t.(calls := t.calls[p := Dropping(name)])
    case Drop(p) => Finish(s, p).(cache := s.cache - {s.calls[p].name})
    case Mkdir(name) => MakeDir(s, name)
    case Restart => s.(calls := map[], cache := map[])
  }

  predicate Legal(s: State, steps: seq<Step>)
    decreases |steps|
  {
    steps == [] || (Can(s, steps[0]) && Legal(Do(s, steps[0]), steps[1..]))
  }

  function Run(s: State, steps: seq<Step>): State
    requires Legal(s, steps)
    decreases |steps|
  {
    if steps == [] then s else Run(Do(s, steps[0]), steps[1..])
  }

  // ---- When a cached level is right ----

  predicate Carries(c: Call) {
    c.Filling? || c.Inserting?
  }

  /** The attribute reads as every level and the writes noted after it say. */
  ghost predicate Consistent(s: State) {
    && (forall name :: name in s.cache ==> ReadAccess(s.dirs, name) == s.cache[name].Expected())
    && (forall p :: p in s.calls && Carries(s.calls[p]) ==>
          ReadAccess(s.dirs, s.calls[p].name) == s.calls[p].found.Expected())
  }

  lemma WriteKeepsConsistent(s: State, dirs: Dirs, name: string)
    requires Consistent(s)
    requires forall other :: other != name ==> ReadAccess(dirs, other) == ReadAccess(s.dirs, other)
    ensures Consistent(Write(s, dirs, name))
  {
  }

  lemma StepKeepsConsistent(s: State, a: Step)
    requires Consistent(s) && Can(s, a)
    ensures Consistent(Do(s, a))
  {
    match a
    case BeginCreate(p, name, _) => WriteKeepsConsistent(s, s.dirs[name := None], name);
    case Mkdir(name) => WriteKeepsConsistent(s, s.dirs[name := None], name);
    case Rmdir(p, name) => WriteKeepsConsistent(s, s.dirs - {name}, name);
    case SetAttr(p) =>
      var c := s.calls[p];
      WriteKeepsConsistent(s, SetAccess(s.dirs, c.name, c.access), c.name);
    case _ =>
  }

  lemma {:induction false} RunKeepsConsistent(s: State, steps: seq<Step>)
    requires Consistent(s) && Legal(s, steps)
    ensures Consistent(Run(s, steps))
    decreases |steps|
  {
    if steps == [] {
    } else {
      StepKeepsConsistent(s, steps[0]);
      RunKeepsConsistent(Do(s, steps[0]), steps[1..]);
    }
  }

  /** The store after a restart. */
  function Started(dirs: Dirs): State {
    State(dirs, map[], map[])
  }

  /** The last attribute write on the bucket since the entry's level was read or written set another level. */
  predicate Overtaken(s: State, name: string)
    requires name in s.cache
  {
    s.cache[name].later.Some? && s.cache[name].later.value != Ok(s.cache[name].level)
  }

  /**
   * In every interleaving, at every moment: a cached level is the bucket's level exactly when no
   * attribute write on the bucket came after the access it stems from, or the last one set that level.
   */
  lemma CachedLevelRightExactly(dirs: Dirs, steps: seq<Step>, name: string)
    requires Legal(Started(dirs), steps) && name in Run(Started(dirs), steps).cache
    ensures var t := Run(Started(dirs), steps);
            ReadAccess(t.dirs, name) == Ok(t.cache[name].level) <==> !Overtaken(t, name)
  {
    RunKeepsConsistent(Started(dirs), steps);
  }

  /** The cache as the calls see it. */
  function Levels(s: State): map<string, AccessLevel> {
    map name | name in s.cache :: s.cache[name].level
  }

  /** In every interleaving, at every moment: the whole cache is right exactly when no entry is overtaken. */
  lemma CacheRightExactly(dirs: Dirs, steps: seq<Step>)
    requires Legal(Started(dirs), steps)
    ensures var t := Run(Started(dirs), steps);
            CacheAgrees(t.dirs, Levels(t)) <==> forall name :: name in t.cache ==> !Overtaken(t, name)
  {
    var t := Run(Started(dirs), steps);
    RunKeepsConsistent(Started(dirs), steps);
    forall name | name in t.cache
      ensures ReadAccess(t.dirs, name) == Ok(Levels(t)[name]) <==> !Overtaken(t, name)
    {
    }
  }

  // ---- When all of the cache is right ----

  /** A level for the bucket is on its way to the cache by another call. */
  ghost predicate InFlight(s: State, p: Option<Pid>, name: string) {
    exists q :: q in s.calls && p != Some(q) && Carries(s.calls[q]) && s.calls[q].name == name
  }

  /** No attribute write on a bucket falls between another call's access and its cache write. */
  ghost predicate Undisturbed(s: State, a: Step)
    requires Can(s, a)
  {
    match a
    case SetAttr(p) => !InFlight(s, Some(p), s.calls[p].name)
    case Rmdir(p, name) => !InFlight(s, Some(p), name)
    case BeginCreate(p, name, _) => name !in s.dirs ==> !InFlight(s, Some(p), name)
    case Mkdir(name) => name !in s.dirs ==> !InFlight(s, None, name)
    case _ => true
  }

  ghost predicate UndisturbedRun(s: State, steps: seq<Step>)
    requires Legal(s, steps)
    decreases |steps|
  {
    steps == [] || (Undisturbed(s, steps[0]) && UndisturbedRun(Do(s, steps[0]), steps[1..]))
  }

  /** The call is going to rewrite or drop the bucket's cache entry. */
  ghost predicate WillRepair(s: State, name: string) {
    exists q :: q in s.calls && (s.calls[q].Inserting? || s.calls[q].Dropping?) && s.calls[q].name == name
  }

  /** Levels in flight are fresh; an entry that has been overtaken is about to be repaired. */
  ghost predicate Fresh(s: State) {
    && Consistent(s)
    && (forall p :: p in s.calls && Carries(s.calls[p]) ==> s.calls[p].found.later.None?)
    && (forall name :: name in s.cache && s.cache[name].later.Some? ==> WillRepair(s, name))
  }

  lemma WriteKeepsOthersFresh(s: State, dirs: Dirs, name: string, p: Option<Pid>)
    requires Fresh(s) && !InFlight(s, p, name)
    ensures var t := Write(s, dirs, name);
            && (forall q :: q in t.calls && p != Some(q) && Carries(t.calls[q]) ==> t.calls[q].found.later.None?)
            && (forall other :: other in t.cache && other != name && t.cache[other].later.Some? ==> WillRepair(s, other))
            && (forall q :: q in s.calls ==>
                  (&& q in t.calls && t.calls[q].name == s.calls[q].name
                   && (t.calls[q].Inserting? <==> s.calls[q].Inserting?)
                   && (t.calls[q].Dropping? <==> s.calls[q].Dropping?)))
  {
  }

  lemma RepairGoesOn(s: State, t: State, name: string, gone: Option<Pid>)
    requires WillRepair(s, name)
    requires forall q :: q in s.calls && gone != Some(q) ==>
               q in t.calls && t.calls[q].name == s.calls[q].name
               && (t.calls[q].Inserting? <==> s.calls[q].Inserting?)
               && (t.calls[q].Dropping? <==> s.calls[q].Dropping?)
    requires gone.Some? && gone.value in s.calls ==>
               s.calls[gone.value].name != name || !(s.calls[gone.value].Inserting? || s.calls[gone.value].Dropping?)
    ensures WillRepair(t, name)
  {
    var q :| q in s.calls && (s.calls[q].Inserting? || s.calls[q].Dropping?) && s.calls[q].name == name;
    assert q in t.calls && t.calls[q].name == name;
  }

  lemma MakeDirKeepsFresh(s: State, name: string, p: Option<Pid>)
    requires Fresh(s) && (name !in s.dirs ==> !InFlight(s, p, name))
    requires p.Some? ==> p.value !in s.calls
    ensures Fresh(MakeDir(s, name))
  {
    if name !in s.dirs {
      var t := MakeDir(s, name);
      WriteKeepsConsistent(s, s.dirs[name := None], name);
      WriteKeepsOthersFresh(s, s.dirs[name := None], name, p);
      forall other | other in t.cache && t.cache[other].later.Some? ensures WillRepair(t, other) {
        assert other == name ==> s.cache[name].later.Some?;
        RepairGoesOn(s, t, other, None);
      }
    }
  }

  lemma SetAttrKeepsFresh(s: State, p: Pid)
    requires Fresh(s) && Can(s, SetAttr(p)) && Undisturbed(s, SetAttr(p))
    ensures Fresh(Do(s, SetAttr(p)))
  {
    var c := s.calls[p];
    var t := Do(s, SetAttr(p));
    StepKeepsConsistent(s, SetAttr(p));
    WriteKeepsOthersFresh(s, SetAccess(s.dirs, c.name, c.access), c.name, Some(p));
    forall other | other in t.cache && t.cache[other].later.Some? ensures WillRepair(t, other) {
      if other == c.name {
        assert p in t.calls && t.calls[p].Inserting? && t.calls[p].name == other;
      } else {
        RepairGoesOn(s, t, other, Some(p));
      }
    }
  }

  lemma RmdirKeepsFresh(s: State, p: Pid, name: string)
    requires Fresh(s) && Can(s, Rmdir(p, name)) && Undisturbed(s, Rmdir(p, name))
    ensures Fresh(Do(s, Rmdir(p, name)))
  {
    var t := Do(s, Rmdir(p, name));
    StepKeepsConsistent(s, Rmdir(p, name));
    WriteKeepsOthersFresh(s, s.dirs - {name}, name, Some(p));
    forall other | other in t.cache && t.cache[other].later.Some? ensures WillRepair(t, other) {
      if other == name {
        assert p in t.calls && t.calls[p].Dropping? && t.calls[p].name == other;
      } else {
        RepairGoesOn(s, t, other, Some(p));
      }
    }
  }

  /** A step that writes no attribute. */
  lemma QuietKeepsFresh(s: State, a: Step)
    requires Fresh(s) && Can(s, a)
    requires a.Miss? || a.ReadAttr? || a.Fill? || a.BeginUpdate? || a.FailSet? || a.Insert? || a.Drop?
    ensures Fresh(Do(s, a))
  {
    var t := Do(s, a);
    StepKeepsConsistent(s, a);
    forall other | other in t.cache && t.cache[other].later.Some? ensures WillRepair(t, other) {
      RepairGoesOn(s, t, other, Some(a.pid));
    }
  }

  lemma StepKeepsFresh(s: State, a: Step)
    requires Fresh(s) && Can(s, a) && Undisturbed(s, a)
    ensures Fresh(Do(s, a))
  {
    match a
    case SetAttr(p) => SetAttrKeepsFresh(s, p);
    case Rmdir(p, name) => RmdirKeepsFresh(s, p, name);
    case Mkdir(name) => MakeDirKeepsFresh(s, name, None);
    case BeginCreate(p, name, access) =>
      MakeDirKeepsFresh(s, name, Some(p));
      var u := MakeDir(s, name);
      QuietKeepsFresh(u, BeginUpdate(p, name, access));
    case Restart =>
    case _ => QuietKeepsFresh(s, a);
  }

  lemma {:induction false} RunKeepsFresh(s: State, steps: seq<Step>)
    requires Fresh(s) && Legal(s, steps) && UndisturbedRun(s, steps)
    ensures Fresh(Run(s, steps))
    decreases |steps|
  {
    if steps == [] {
    } else {
      StepKeepsFresh(s, steps[0]);
      RunKeepsFresh(Do(s, steps[0]), steps[1..]);
    }
  }

  /**
   * Whenever no call is running, the whole cache is right, if no attribute write on a bucket fell
   * between another call's read or write of that attribute and its cache write.
   */
  lemma QuietCacheAgrees(dirs: Dirs, steps: seq<Step>)
    requires Legal(Started(dirs), steps) && UndisturbedRun(Started(dirs), steps)
    requires Run(Started(dirs), steps).calls == map[]
    ensures var t := Run(Started(dirs), steps);
            CacheAgrees(t.dirs, Levels(t))
  {
    RunKeepsFresh(Started(dirs), steps);
  }

  // ---- Runs that are disturbed ----

  /** One more step at the end of a run. */
  lemma {:induction false} RunOn(s: State, steps: seq<Step>, t: State, a: Step) returns (more: seq<Step>, u: State)
    requires Legal(s, steps) && Run(s, steps) == t && Can(t, a)
    ensures more == steps + [a] && Legal(s, more) && Run(s, more) == u == Do(t, a)
    decreases |steps|
  {
    more, u := steps + [a], Do(t, a);
    if steps == [] {
      assert more[1..] == [] && Legal(u, []);
    } else {
      var rest, v := RunOn(Do(s, steps[0]), steps[1..], t, a);
      assert more[1..] == rest;
    }
  }

  /** A read that misses the cache before an update and fills it afterwards leaves the old level for good. */
  lemma StaleFill(dirs: Dirs, name: string) returns (steps: seq<Step>, t: State)
    requires ValidBucketName(name) && ReadAccess(dirs, name) == Ok(Private)
    ensures Legal(Started(dirs), steps) && Run(Started(dirs), steps) == t && t.calls == map[]
    ensures name in t.cache && t.cache[name].level == Private && ReadAccess(t.dirs, name) == Ok(Public)
  {
    var s := Started(dirs);
    steps, t := RunOn(s, [], s, Miss(0, name));
    steps, t := RunOn(s, steps, t, ReadAttr(0));
    steps, t := RunOn(s, steps, t, BeginUpdate(1, name, Public));
    steps, t := RunOn(s, steps, t, SetAttr(1));
    steps, t := RunOn(s, steps, t, Insert(1));
    steps, t := RunOn(s, steps, t, Fill(0));
  }

  /** Two updates that overlap can leave the cache with the level of the one that wrote the attribute first. */
  lemma StaleInsert(dirs: Dirs, name: string) returns (steps: seq<Step>, t: State)
    requires ValidBucketName(name) && name in dirs
    ensures Legal(Started(dirs), steps) && Run(Started(dirs), steps) == t && t.calls == map[]
    ensures name in t.cache && t.cache[name].level == Public && ReadAccess(t.dirs, name) == Ok(Private)
  {
    var s := Started(dirs);
    steps, t := RunOn(s, [], s, BeginUpdate(0, name, Public));
    steps, t := RunOn(s, steps, t, BeginUpdate(1, name, Private));
    steps, t := RunOn(s, steps, t, SetAttr(0));
    steps, t := RunOn(s, steps, t, SetAttr(1));
    steps, t := RunOn(s, steps, t, Insert(1));
    steps, t := RunOn(s, steps, t, Insert(0));
  }

  // ---- One call at a time ----

  // The effects of a call run without interruption do to the directories what the whole call does.

  lemma UpdateAlone(s: State, p: Pid, name: string, access: AccessLevel)
    requires p !in s.calls && ValidBucketName(name) && name in s.dirs
    ensures var t := Do(Do(Do(s, BeginUpdate(p, name, access)), SetAttr(p)), Insert(p));
            t.dirs == StepPlain(s.dirs, Update(name, access, true)).0 && name in t.cache && t.cache[name].level == access
  {
  }

  lemma CreateAlone(s: State, p: Pid, name: string, access: AccessLevel)
    requires p !in s.calls && ValidBucketName(name)
    ensures var t := Do(Do(Do(s, BeginCreate(p, name, access)), SetAttr(p)), Insert(p));
            t.dirs == StepPlain(s.dirs, Create(name, access, true)).0 && name in t.cache && t.cache[name].level == access
  {
  }

  lemma DeleteAlone(s: State, p: Pid, name: string)
    requires p !in s.calls && ValidBucketName(name) && name in s.dirs
    ensures var t := Do(Do(s, Rmdir(p, name)), Drop(p));
            t.dirs == StepPlain(s.dirs, Delete(name, true)).0 && name !in t.cache
  {
  }

  lemma ResolveAlone(s: State, p: Pid, name: string)
    requires p !in s.calls && name !in s.cache && ReadAccess(s.dirs, name).Ok?
    ensures var t := Do(Do(Do(s, Miss(p, name)), ReadAttr(p)), Fill(p));
            name in t.cache && StepPlain(s.dirs, Resolve(name, None)) == (t.dirs, Ok(Some(t.cache[name].level)))
  {
  }
}
