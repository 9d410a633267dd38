/** What is left of a key when two calls overlap on it. */
module Overlaps {
  import opened Types
  import opened KeyPaths
  import opened IndexAgreement
  import opened HandlerEffects

  /** A whole call on proper keys: not yet begun, no move of a key onto itself, no directories. */
  ghost predicate Whole(s: State, h: Handler) {
    && h.stage.Started? && (h.Complete? ==> h.at == h.named) && (h.Patch? ==> h.src != h.dst)
    && forall k :: k in Touches(h) ==> Proper(k) && k !in s.dirs
  }

  /** How many effects the call has. */
  function Effects(h: Handler): nat {
    if h.Patch? then 3 else 2
  }

  /** Which of its effects changes the file of `k`, and which one the entry. */
  function FileSlot(h: Handler): nat {
    if h.Patch? then 1 else 0
  }

  function EntrySlot(h: Handler, k: Key): nat {
    if !h.Patch? then 1 else if k == h.dst then 0 else 2
  }

  /** Whether the call is to leave `k` with an object. */
  predicate Leaves(h: Handler, k: Key) {
    !h.Delete? && (h.Patch? ==> k == h.dst)
  }

  /** How often `who` is next. */
  function Count(order: seq<bool>, who: bool): nat {
    if order == [] then 0 else (if order[0] == who then 1 else 0) + Count(order[1..], who)
  }

  /** Effect number `a` of the first call comes after effect number `b` of the second. */
  predicate After(order: seq<bool>, a: nat, b: nat) {
    if order == [] then false
    else if order[0] then a > 0 && After(order[1..], a - 1, b)
    else b == 0 || After(order[1..], a, b - 1)
  }

  function Pick(first: bool): Pid {
    if first then 0 else 1
  }

  function Advances(order: seq<bool>): seq<Step> {
    if order == [] then [] else [Advance(Pick(order[0]))] + Advances(order[1..])
  }

  /** Both calls begin, and then their effects come in the given order. */
  function Overlap(h1: Handler, h2: Handler, order: seq<bool>): seq<Step> {
    [Begin(0, h1), Begin(1, h2)] + Advances(order)
  }

  /** Both calls take all their effects. */
  predicate IsInterleaving(order: seq<bool>, h1: Handler, h2: Handler) {
    Count(order, true) == Effects(h1) && Count(order, false) == Effects(h2)
  }

  /** The calls want different things, and the last file effect is not by the one with the last entry effect. */
  predicate Crossed(h1: Handler, h2: Handler, order: seq<bool>, k: Key) {
    && k in Touches(h1) && k in Touches(h2) && Leaves(h1, k) != Leaves(h2, k)
    && After(order, FileSlot(h1), FileSlot(h2)) != After(order, EntrySlot(h1, k), EntrySlot(h2, k))
  }

  // ---- One effect ----

  /** The handler after `n` effects, `None` after all. */
  function At(h: Handler, n: nat): Option<Handler> {
    if n >= Effects(h) then None
    else Some(h.(stage := if n == 0 then Started else if n == 1 then FirstDone else SecondDone))
  }

  predicate RunsAt(s: State, p: Pid, h: Handler, n: nat) {
    (p in s.running <==> At(h, n).Some?) && (p in s.running ==> At(h, n) == Some(s.running[p]))
  }

  /** Whether the key has a file and an entry. */
  datatype Marks = Marks(file: bool, entry: bool)

  function MarksOf(s: State, k: Key): Marks {
    Marks(k in s.files, k in s.index)
  }

  /** What effect number `n` of the call makes of them. */
  function Next(was: Marks, h: Handler, n: nat, k: Key): Marks {
    if k !in Touches(h) then was
    else Marks(if FileSlot(h) == n then Leaves(h, k) else was.file,
               if EntrySlot(h, k) == n then Leaves(h, k) else was.entry)
  }

  lemma OneEffect(s: State, p: Pid, h: Handler, n: nat, k: Key)
    requires Whole(s, h) && RunsAt(s, p, h, n) && n < Effects(h) && Can(s, Advance(p))
    ensures var t := Do(s, Advance(p));
            && RunsAt(t, p, h, n + 1) && t.dirs == s.dirs
            && t.running - {p} == s.running - {p}
            && MarksOf(t, k) == Next(MarksOf(s, k), h, n, k)
  {
    match h
    case Patch(_, _, _) => MoveEffect(s, p, h, n, k);
    case Complete(at, _, _) => CompletionEffect(s, p, h, n, k);
    case Put(key, _) => assert key in Touches(h) && Resolve(key) == key;
    case Delete(key, _) => assert key in Touches(h) && Resolve(key) == key;
  }

  lemma CompletionEffect(s: State, p: Pid, h: Handler, n: nat, k: Key)
    requires Whole(s, h) && RunsAt(s, p, h, n) && n < Effects(h) && Can(s, Advance(p)) && h.Complete?
    ensures var t := Do(s, Advance(p));
            && RunsAt(t, p, h, n + 1) && t.dirs == s.dirs
            && t.running - {p} == s.running - {p}
            && MarksOf(t, k) == Next(MarksOf(s, k), h, n, k)
  {
    if h.at.Some? {
      assert h.at.value in Touches(h) && Resolve(h.at.value) == h.at.value;
    }
  }

  lemma MoveEffect(s: State, p: Pid, h: Handler, n: nat, k: Key)
    requires Whole(s, h) && RunsAt(s, p, h, n) && n < Effects(h) && Can(s, Advance(p)) && h.Patch?
    ensures var t := Do(s, Advance(p));
            && RunsAt(t, p, h, n + 1) && t.dirs == s.dirs
            && t.running - {p} == s.running - {p}
            && MarksOf(t, k) == Next(MarksOf(s, k), h, n, k)
  {
    assert h.src in Touches(h) && h.dst in Touches(h);
    assert Resolve(h.src) == h.src && Resolve(h.dst) == h.dst;
  }

  // ---- The rest of the effects ----

  /** What the effects make of the marks, one after the other. */
  function Fold(was: Marks, h1: Handler, n: nat, h2: Handler, m: nat, k: Key, order: seq<bool>): Marks
    decreases |order|
  {
    if order == [] then was
    else if order[0] then Fold(Next(was, h1, n, k), h1, n + 1, h2, m, k, order[1..])
    else Fold(Next(was, h2, m, k), h1, n, h2, m + 1, k, order[1..])
  }

  /** The later of the two changes that are still to come decides. */
  function Left(was: bool, h1: Handler, a: int, h2: Handler, b: int, k: Key, order: seq<bool>): bool {
    var first, second := k in Touches(h1) && a >= 0, k in Touches(h2) && b >= 0;
    if first && (!second || After(order, a, b)) then Leaves(h1, k)
    else if second then Leaves(h2, k)
    else was
  }

  lemma LeftStep(was: bool, h1: Handler, a: int, h2: Handler, b: int, k: Key, order: seq<bool>)
    requires order != [] && a < Count(order, true) && b < Count(order, false)
    ensures Left(was, h1, a, h2, b, k, order)
            == if order[0] then
                 Left(if k in Touches(h1) && a == 0 then Leaves(h1, k) else was, h1, a - 1, h2, b, k, order[1..])
               else
                 Left(if k in Touches(h2) && b == 0 then Leaves(h2, k) else was, h1, a, h2, b - 1, k, order[1..])
  {
  }

  lemma {:induction false} FoldedFile(was: Marks, h1: Handler, n: nat, h2: Handler, m: nat, k: Key, order: seq<bool>)
    requires n + Count(order, true) == Effects(h1) && m + Count(order, false) == Effects(h2)
    ensures Fold(was, h1, n, h2, m, k, order).file
            == Left(was.file, h1, FileSlot(h1) - n, h2, FileSlot(h2) - m, k, order)
    decreases |order|
  {
    if order != [] {
      LeftStep(was.file, h1, FileSlot(h1) - n, h2, FileSlot(h2) - m, k, order);
      if order[0] {
        FoldedFile(Next(was, h1, n, k), h1, n + 1, h2, m, k, order[1..]);
      } else {
        FoldedFile(Next(was, h2, m, k), h1, n, h2, m + 1, k, order[1..]);
      }
    }
  }

  lemma {:induction false} FoldedEntry(was: Marks, h1: Handler, n: nat, h2: Handler, m: nat, k: Key, order: seq<bool>)
    requires n + Count(order, true) == Effects(h1) && m + Count(order, false) == Effects(h2)
    ensures Fold(was, h1, n, h2, m, k, order).entry
            == Left(was.entry, h1, EntrySlot(h1, k) - n, h2, EntrySlot(h2, k) - m, k, order)
    decreases |order|
  {
    if order != [] {
      LeftStep(was.entry, h1, EntrySlot(h1, k) - n, h2, EntrySlot(h2, k) - m, k, order);
      if order[0] {
        FoldedEntry(Next(was, h1, n, k), h1, n + 1, h2, m, k, order[1..]);
      } else {
        FoldedEntry(Next(was, h2, m, k), h1, n, h2, m + 1, k, order[1..]);
      }
    }
  }

  /** Both calls have got this far. */
  ghost predicate Both(s: State, h1: Handler, n: nat, h2: Handler, m: nat) {
    && Whole(s, h1) && RunsAt(s, 0, h1, n) && Whole(s, h2) && RunsAt(s, 1, h2, m)
    && s.running.Keys <= {0, 1} && n <= Effects(h1) && m <= Effects(h2)
  }

  lemma OneOfTwo(s: State, h1: Handler, n: nat, h2: Handler, m: nat, first: bool, k: Key)
    requires Both(s, h1, n, h2, m) && Can(s, Advance(Pick(first)))
    ensures var t := Do(s, Advance(Pick(first)));
            if first then n < Effects(h1) && Both(t, h1, n + 1, h2, m) && MarksOf(t, k) == Next(MarksOf(s, k), h1, n, k)
            else m < Effects(h2) && Both(t, h1, n, h2, m + 1) && MarksOf(t, k) == Next(MarksOf(s, k), h2, m, k)
  {
    if first {
      OneEffect(s, 0, h1, n, k);
      Unmoved(s, Do(s, Advance(0)), 0, 1);
    } else {
      OneEffect(s, 1, h2, m, k);
      Unmoved(s, Do(s, Advance(1)), 1, 0);
    }
  }

  lemma Unmoved(s: State, t: State, p: Pid, q: Pid)
    requires t.running - {p} == s.running - {p} && p != q
    ensures q in t.running <==> q in s.running
    ensures q in t.running ==> t.running[q] == s.running[q]
  {
    assert q in t.running <==> q in t.running - {p};
    assert q in s.running <==> q in s.running - {p};
    assert q in t.running ==> (t.running - {p})[q] == t.running[q];
    assert q in s.running ==> (s.running - {p})[q] == s.running[q];
  }

  lemma RunStep(s: State, order: seq<bool>)
    requires order != [] && Legal(s, Advances(order))
    ensures var a := Advance(Pick(order[0]));
            && Can(s, a) && Legal(Do(s, a), Advances(order[1..]))
            && Run(s, Advances(order)) == Run(Do(s, a), Advances(order[1..]))
  {
    assert Advances(order)[0] == Advance(Pick(order[0])) && Advances(order)[1..] == Advances(order[1..]);
  }

  lemma BothDone(s: State, h1: Handler, h2: Handler)
    requires Both(s, h1, Effects(h1), h2, Effects(h2))
    ensures s.running == map[]
  {
    assert s.running.Keys == {};
  }

  /** One step of both the run and the fold. */
  lemma StepOfTwo(s: State, h1: Handler, n: nat, h2: Handler, m: nat, order: seq<bool>, k: Key) returns (t: State)
    requires Both(s, h1, n, h2, m) && order != [] && Legal(s, Advances(order))
    ensures Legal(t, Advances(order[1..])) && Run(t, Advances(order[1..])) == Run(s, Advances(order))
    ensures if order[0] then
              && n < Effects(h1) && Both(t, h1, n + 1, h2, m)
              && Fold(MarksOf(t, k), h1, n + 1, h2, m, k, order[1..]) == Fold(MarksOf(s, k), h1, n, h2, m, k, order)
            else
              && m < Effects(h2) && Both(t, h1, n, h2, m + 1)
              && Fold(MarksOf(t, k), h1, n, h2, m + 1, k, order[1..]) == Fold(MarksOf(s, k), h1, n, h2, m, k, order)
  {
    t := Do(s, Advance(Pick(order[0])));
    RunStep(s, order);
    OneOfTwo(s, h1, n, h2, m, order[0], k);
  }

  lemma {:induction false} RestOfEffects(s: State, h1: Handler, n: nat, h2: Handler, m: nat, order: seq<bool>, k: Key)
    returns (end: State)
    requires Both(s, h1, n, h2, m) && Legal(s, Advances(order))
    requires n + Count(order, true) == Effects(h1) && m + Count(order, false) == Effects(h2)
    ensures end == Run(s, Advances(order)) && end.running == map[]
    ensures MarksOf(end, k) == Fold(MarksOf(s, k), h1, n, h2, m, k, order)
    decreases |order|
  {
    if order == [] {
      end := s;
      BothDone(s, h1, h2);
    } else {
      var t := StepOfTwo(s, h1, n, h2, m, order, k);
      if order[0] {
        end := RestOfEffects(t, h1, n + 1, h2, m, order[1..], k);
      } else {
        end := RestOfEffects(t, h1, n, h2, m + 1, order[1..], k);
      }
    }
  }

  /**
   * Any two calls that overlap and take all their effects, in whatever order: a key ends in agreement exactly
   * when the calls do not cross on it.
   */
  lemma OverlapAgreesExactly(s: State, h1: Handler, h2: Handler, order: seq<bool>, k: Key)
    requires AtRest(s) && Whole(s, h1) && Whole(s, h2)
    requires Legal(s, Overlap(h1, h2, order)) && IsInterleaving(order, h1, h2)
    ensures var t := Run(s, Overlap(h1, h2, order));
            t.running == map[] && (Agrees(t, k) <==> !Crossed(h1, h2, order, k))
  {
    var t := BothBegin(s, h1, h2, order);
    var end := RestOfEffects(t, h1, 0, h2, 0, order, k);
    FoldDecides(MarksOf(t, k), h1, h2, order, k);
  }

  lemma FoldDecides(was: Marks, h1: Handler, h2: Handler, order: seq<bool>, k: Key)
    requires was.file == was.entry && IsInterleaving(order, h1, h2)
    ensures var end := Fold(was, h1, 0, h2, 0, k, order);
            end.file == end.entry <==> !Crossed(h1, h2, order, k)
  {
    FoldedFile(was, h1, 0, h2, 0, k, order);
    FoldedEntry(was, h1, 0, h2, 0, k, order);
  }

  lemma BothBegin(s: State, h1: Handler, h2: Handler, order: seq<bool>) returns (t: State)
    requires AtRest(s) && Whole(s, h1) && Whole(s, h2)
    requires Legal(s, Overlap(h1, h2, order))
    ensures Both(t, h1, 0, h2, 0) && t.files == s.files && t.index == s.index
    ensures Legal(t, Advances(order)) && Run(t, Advances(order)) == Run(s, Overlap(h1, h2, order))
  {
    var steps := Overlap(h1, h2, order);
    t := Do(Do(s, Begin(0, h1)), Begin(1, h2));
    assert steps[0] == Begin(0, h1) && steps[1..] == [Begin(1, h2)] + Advances(order);
    assert steps[1..][1..] == Advances(order);
  }

  // ---- Orders that can happen ----

  /** Calls on one key that change its file first are never blocked by each other. */
  lemma {:induction false} NeverBlocked(s: State, h1: Handler, n: nat, h2: Handler, m: nat, order: seq<bool>, k: Key)
    requires Both(s, h1, n, h2, m) && !h1.Patch? && !h2.Patch? && Touches(h1) == {k} == Touches(h2)
    requires CanPlace(s, k)
    requires n + Count(order, true) == 2 && m + Count(order, false) == 2
    ensures Legal(s, Advances(order))
    decreases |order|
  {
    if order != [] {
      var a := Advance(Pick(order[0]));
      OneMayGo(s, if order[0] then h1 else h2, if order[0] then n else m, Pick(order[0]), k);
      OneOfTwo(s, h1, n, h2, m, order[0], k);
      if order[0] {
        NeverBlocked(Do(s, a), h1, n + 1, h2, m, order[1..], k);
      } else {
        NeverBlocked(Do(s, a), h1, n, h2, m + 1, order[1..], k);
      }
      assert Advances(order)[0] == a && Advances(order)[1..] == Advances(order[1..]);
    }
  }

  lemma OneMayGo(s: State, h: Handler, n: nat, p: Pid, k: Key)
    requires Whole(s, h) && RunsAt(s, p, h, n) && n < 2 && !h.Patch? && Touches(h) == {k} && CanPlace(s, k)
    ensures Can(s, Advance(p)) && CanPlace(Do(s, Advance(p)), k)
  {
    assert k in Touches(h) && Resolve(k) == k;
    if h.Complete? {
      assert h.at == Some(k);
    }
  }

  /**
   * A PUT and a DELETE of one key can overlap in every order, and leave it in agreement exactly when
   * neither runs entirely between the two effects of the other.
   */
  lemma PutDeleteOverlap(s: State, key: Key, order: seq<bool>)
    requires AtRest(s) && Proper(key) && CanPlace(s, key)
    requires IsInterleaving(order, Put(key, Started), Delete(key, Started))
    ensures var steps := Overlap(Put(key, Started), Delete(key, Started), order);
            |order| == 4 && Legal(s, steps) && (Agrees(Run(s, steps), key) <==> order[0] != order[3])
  {
    var h1, h2 := Put(key, Started), Delete(key, Started);
    var t := Do(Do(s, Begin(0, h1)), Begin(1, h2));
    assert Whole(s, h1) && Whole(s, h2);
    NeverBlocked(t, h1, 0, h2, 0, order, key);
    var steps := Overlap(h1, h2, order);
    assert steps[0] == Begin(0, h1) && steps[1..] == [Begin(1, h2)] + Advances(order);
    assert steps[1..][1..] == Advances(order);
    OverlapAgreesExactly(s, h1, h2, order, key);
    FourEffects(order, key);
  }

  lemma FourEffects(order: seq<bool>, key: Key)
    requires Count(order, true) == 2 && Count(order, false) == 2
    ensures |order| == 4
    ensures Crossed(Put(key, Started), Delete(key, Started), order, key) <==> order[0] == order[3]
  {
    CountBoth(order);
    var rest := order[1..];
    var last := rest[1..];
    assert order[2] == last[0] && order[3] == last[1];
    CountTwo(last);
    assert After(last, 0, 0) == !last[0];
    assert After(rest, 0, 1) == (!rest[0] && !last[0]);
    assert After(rest, 1, 0) == (!rest[0] || !last[0]);
    assert After(order, 1, 1) == order[3];
  }

  lemma CountTwo(order: seq<bool>)
    requires |order| == 2
    ensures Count(order, true) == (if order[0] then 1 else 0) + (if order[1] then 1 else 0)
  {
    var last := order[1..];
    assert last[0] == order[1] && last[1..] == [];
    assert Count(last, true) == if order[1] then 1 else 0;
  }

  lemma {:induction false} CountBoth(order: seq<bool>)
    ensures Count(order, true) + Count(order, false) == |order|
  {
    if order != [] {
      CountBoth(order[1..]);
    }
  }

  /** An upload to the old key between the move and the end of a PATCH is there and not listed. */
  lemma UploadDuringPatchIsHidden(s: State, src: Key, dst: Key) returns (steps: seq<Step>, t: State)
    requires AtRest(s) && Whole(s, Patch(src, dst, Started)) && CanMoveFile(s, src, dst)
    requires NoFileAbove(MoveFile(s, src, dst), src)
    ensures Legal(s, steps) && Run(s, steps) == t && t.running == map[] && t.unsettled <= s.unsettled
    ensures src in t.files && src !in t.index
  {
    var h := Patch(src, dst, Started);
    assert src in Touches(h) && dst in Touches(h);
    CanonicalIsFileLike(src);
    steps, t := RunOn(s, [], s, Begin(0, h));
    steps, t := RunOn(s, steps, t, Advance(0));
    steps, t := RunOn(s, steps, t, Advance(0));
    steps, t := RunOn(s, steps, t, Begin(1, Put(src, Started)));
    steps, t := RunOn(s, steps, t, Advance(1));
    steps, t := RunOn(s, steps, t, Advance(1));
    steps, t := RunOn(s, steps, t, Advance(0));
  }
}
