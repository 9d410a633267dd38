/** Facts about sequences and finite sets. */
module Sequences {
  function Flatten<T>(parts: seq<seq<T>>): seq<T> {
    if parts == [] then [] else Flatten(parts[..|parts| - 1]) + parts[|parts| - 1]
  }

  lemma FlattenSnoc<T>(parts: seq<seq<T>>, last: seq<T>)
    ensures Flatten(parts + [last]) == Flatten(parts) + last
  {
    assert (parts + [last])[..|parts|] == parts;
  }

  lemma Regroup<T>(x: seq<T>, y: seq<T>, z: seq<T>)
    ensures x + (y + z) == (x + y) + z
  {
  }

  lemma {:induction false} FlattenFirst<T>(first: seq<T>, rest: seq<seq<T>>)
    ensures Flatten([first] + rest) == first + Flatten(rest)
  {
    if rest == [] {
      assert [first] + rest == [] + [first];
      FlattenSnoc([], first);
    } else {
      var init, last := rest[..|rest| - 1], rest[|rest| - 1];
      FlattenFirst(first, init);
      assert rest == init + [last];
      Regroup([first], init, [last]);
      FlattenSnoc([first] + init, last);
      FlattenSnoc(init, last);
      Regroup(first, Flatten(init), last);
    }
  }

  lemma SubsetSize<T>(a: set<T>, b: set<T>)
    requires a <= b
    ensures |a| <= |b|
  {
    assert b == a + (b - a);
  }

  /** Some integer is not in the set. */
  lemma {:induction false} Unused(s: set<int>) returns (n: int)
    ensures forall i :: i in s ==> i < n
    decreases |s|
  {
    if x :| x in s {
      var m := Unused(s - {x});
      n := if x < m then m else x + 1;
      assert forall i :: i in s ==> i == x || i in s - {x};
    } else {
      n := 0;
    }
  }
}
