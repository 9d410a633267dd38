/**
 * What bucket calls answer over whole runs, told from the calls that came before and not from the
 * attribute or the cache.
 */
module BucketHistory {
  import opened Types
  import opened TempFile
  import opened BucketAccess

  /** A bucket as its clients know it: no directory, never given a level, given one, or an unreadable attribute. */
  datatype Standing = Gone | Unset | Given(level: AccessLevel) | Unreadable

  /** How a bucket stands at the start, from what is on disk. */
  function Initially(dirs: Dirs, name: string): Standing {
    if name !in dirs then Gone
    else if dirs[name] == None then Unset
    else if dirs[name] == Some("public") then Given(Public)
    else if dirs[name] == Some("private") then Given(Private)
    else Unreadable
  }

  /** A name that buckets may have. */
  predicate Nameable(name: string) {
    name != "" && name[0] != '.' && forall c :: c in name ==> c != '/' && c != '\0'
  }

  function Exists(was: Standing): Standing {
    if was.Gone? then Unset else was
  }

  /** What a call makes of the bucket it names. */
  function Next(was: Standing, op: Op): Standing {
    match op
    case Create(name, access, wrote) =>
      if !Nameable(name) then was else if wrote then Given(access) else Exists(was)
    case Update(name, access, wrote) => if Nameable(name) && !was.Gone? && wrote then Given(access) else was
    case Delete(name, empty) => if Nameable(name) && empty then Gone else was
    case ImplicitDir(_) => Exists(was)
    case _ => was
  }

  /** How a bucket stands after a run of calls. */
  function StandingAfter(dirs: Dirs, ops: seq<Op>, name: string): Standing {
    if ops == [] then Initially(dirs, name)
    else
      var was, op := StandingAfter(dirs, ops[..|ops| - 1], name), ops[|ops| - 1];
      if op.Restart? || op.name != name then was else Next(was, op)
  }

  /** What a call answers when the bucket it names stands like that. */
  function AnswerTo(was: Standing, op: Op): Answer {
    match op
    case Create(name, _, wrote) =>
      if !Nameable(name) then Err(InvalidKey) else if wrote then Ok(None) else Err(XattrError)
    case Update(name, _, wrote) =>
      if !Nameable(name) then Err(InvalidKey)
      else if was.Gone? then Err(BucketNotFound)
      else if wrote then Ok(None)
      else Err(XattrError)
    case Delete(name, empty) =>
      if !Nameable(name) then Err(InvalidKey) else if was.Gone? || empty then Ok(None) else Err(BucketNotEmpty)
    case ImplicitDir(_) => Ok(None)
    case Resolve(_, Some(own)) => Ok(Some(own))
    case Resolve(_, None) =>
      (match was
       case Gone => Err(XattrError)
       case Unset => Ok(Some(Private))
       case Given(level) => Ok(Some(level))
       case Unreadable => Err(InvalidValue))
    case Restart => Ok(None)
  }

  lemma StepStands(dirs: Dirs, op: Op, name: string)
    ensures Initially(StepPlain(dirs, op).0, name) ==
            if op.Restart? || op.name != name then Initially(dirs, name) else Next(Initially(dirs, name), op)
    ensures op.Restart? || op.name == name ==> StepPlain(dirs, op).1 == AnswerTo(Initially(dirs, name), op)
  {
  }

  lemma {:induction false} RunStands(dirs: Dirs, ops: seq<Op>, name: string)
    ensures Initially(RunPlain(dirs, ops).0, name) == StandingAfter(dirs, ops, name)
  {
    if ops != [] {
      RunStands(dirs, ops[..|ops| - 1], name);
      StepStands(RunPlain(dirs, ops[..|ops| - 1]).0, ops[|ops| - 1], name);
    }
  }

  /** The bucket that a call names. */
  function NameOf(op: Op): string {
    if op.Restart? then "" else op.name
  }

  /** The answer is the one that the first `i` calls call for. */
  predicate AnswerTells(dirs: Dirs, ops: seq<Op>, i: nat, answer: Answer)
    requires i < |ops|
  {
    answer == AnswerTo(StandingAfter(dirs, ops[..i], NameOf(ops[i])), ops[i])
  }

  ghost predicate AnswersTellHistory(dirs: Dirs, ops: seq<Op>, answers: seq<Answer>) {
    |answers| == |ops| && forall i :: 0 <= i < |ops| ==> AnswerTells(dirs, ops, i, answers[i])
  }

  lemma EarlierAnswer(dirs: Dirs, ops: seq<Op>, n: nat, i: nat, answer: Answer)
    requires i < n <= |ops| && AnswerTells(dirs, ops[..n], i, answer)
    ensures AnswerTells(dirs, ops, i, answer)
  {
    assert ops[..n][i] == ops[i] && ops[..n][..i] == ops[..i];
  }

  lemma LastAnswer(dirs: Dirs, ops: seq<Op>)
    requires ops != []
    ensures var n := |ops| - 1;
            AnswerTells(dirs, ops, n, StepPlain(RunPlain(dirs, ops[..n]).0, ops[n]).1)
  {
    var n := |ops| - 1;
    RunStands(dirs, ops[..n], NameOf(ops[n]));
    StepStands(RunPlain(dirs, ops[..n]).0, ops[n], NameOf(ops[n]));
  }

  lemma {:induction false} AnswersOfRun(dirs: Dirs, ops: seq<Op>)
    ensures AnswersTellHistory(dirs, ops, RunPlain(dirs, ops).1)
  {
    if ops != [] {
      var n := |ops| - 1;
      AnswersOfRun(dirs, ops[..n]);
      LastAnswer(dirs, ops);
      forall i | 0 <= i < n ensures AnswerTells(dirs, ops, i, RunPlain(dirs, ops[..n]).1[i]) {
        EarlierAnswer(dirs, ops, n, i, RunPlain(dirs, ops[..n]).1[i]);
      }
    }
  }

  /**
   * Over any sequence of bucket calls and reads, from any directories found on disk, with the cache: each
   * answer is the one that the earlier calls call for. A bucket that was never given a level is private.
   */
  method RunCached(start: Dirs, ops: seq<Op>) returns (dirs: Dirs, answers: seq<Answer>)
    ensures (dirs, answers) == RunPlain(start, ops)
    ensures AnswersTellHistory(start, ops, answers)
    ensures forall name :: Initially(dirs, name) == StandingAfter(start, ops, name)
  {
    var buckets := new Buckets(start);
    answers := [];
    for i := 0 to |ops|
      invariant CacheAgrees(buckets.dirs, buckets.cache)
      invariant (buckets.dirs, answers) == RunPlain(start, ops[..i])
    {
      assert ops[..i + 1][..i] == ops[..i];
      var r := buckets.Call(ops[i]);
      answers := answers + [r];
    }
    assert ops[..|ops|] == ops;
    dirs := buckets.dirs;
    AnswersOfRun(start, ops);
    forall name ensures Initially(dirs, name) == StandingAfter(start, ops, name) {
      RunStands(start, ops, name);
    }
  }

  /** What is in the cache when every entry agrees with its attribute: a level somebody has given, or private. */
  lemma CachedLevelsAreGiven(dirs: Dirs, cache: Cache, name: string)
    requires CacheAgrees(dirs, cache) && name in cache
    ensures Initially(dirs, name) == Given(cache[name]) || (Initially(dirs, name) == Unset && cache[name] == Private)
  {
  }
}
