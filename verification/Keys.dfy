/** Keys and paths as text, whatever the text consists of. */
module Keys {
  /** The pieces between separators. */
  function Split<T(==)>(s: seq<T>, sep: T): (r: seq<seq<T>>)
    ensures r != []
  {
    if s == [] then [[]]
    else
      var rest := Split(s[1..], sep);
      if s[0] == sep then [[]] + rest else [[s[0]] + rest[0]] + rest[1..]
  }

  predicate EndsWith<T(==)>(s: seq<T>, suffix: seq<T>) {
    |s| >= |suffix| && s[|s| - |suffix|..] == suffix
  }

  /** `validate_key`: not empty, no NUL, no leading slash, no piece of two dots. */
  predicate Acceptable<T(==)>(key: seq<T>, slash: T, nul: T, dot: T) {
    key != [] && nul !in key && key[0] != slash && [dot, dot] !in Split(key, slash)
  }

  /** An empty piece or a single dot does not count. */
  function Keep<T(==)>(c: seq<T>, dot: T): seq<seq<T>> {
    if c == [] || c == [dot] then [] else [c]
  }

  function Kept<T(==)>(cs: seq<seq<T>>, dot: T): seq<seq<T>> {
    if cs == [] then []
    else Keep(cs[0], dot) + Kept(cs[1..], dot)
  }

  lemma {:induction false} SplitWithout<T>(s: seq<T>, sep: T)
    requires sep !in s
    ensures Split(s, sep) == [s]
  {
    if s != [] {
      SplitWithout(s[1..], sep);
      assert [s[0]] + s[1..] == s;
    }
  }

  lemma {:induction false} SplitConcat<T>(a: seq<T>, r: seq<T>, sep: T)
    ensures Split(a + [sep] + r, sep) == Split(a, sep) + Split(r, sep)
  {
    var s := a + [sep] + r;
    if a == [] {
      assert s[1..] == r;
    } else {
      SplitConcat(a[1..], r, sep);
      assert s[1..] == a[1..] + [sep] + r;
      HeadOfConcat(a[0], Split(a[1..], sep), Split(r, sep));
    }
  }

  /** Prefixing the first of two lists. */
  lemma HeadOfConcat<T>(c: T, front: seq<seq<T>>, back: seq<seq<T>>)
    requires front != []
    ensures [[]] + (front + back) == ([[]] + front) + back
    ensures [[c] + (front + back)[0]] + (front + back)[1..] == ([[c] + front[0]] + front[1..]) + back
  {
    assert (front + back)[1..] == front[1..] + back;
  }

  /** What follows without a separator lengthens the last piece. */
  lemma {:induction false} SplitThen<T>(s: seq<T>, t: seq<T>, sep: T)
    requires sep !in t
    ensures var parts := Split(s, sep);
            Split(s + t, sep) == parts[..|parts| - 1] + [parts[|parts| - 1] + t]
  {
    if s == [] {
      SplitWithout(t, sep);
      assert s + t == t;
    } else {
      assert (s + t)[1..] == s[1..] + t;
      SplitThen(s[1..], t, sep);
      SplitHead(s[0], Split(s[1..], sep), t);
    }
  }

  lemma SplitHead<T>(c: T, rest: seq<seq<T>>, t: seq<T>)
    requires rest != []
    ensures var more := rest[..|rest| - 1] + [rest[|rest| - 1] + t];
            var sep, plain := [[]] + rest, [[c] + rest[0]] + rest[1..];
            && [[]] + more == sep[..|sep| - 1] + [sep[|sep| - 1] + t]
            && [[c] + more[0]] + more[1..] == plain[..|plain| - 1] + [plain[|plain| - 1] + t]
  {
    if |rest| == 1 {
      assert [c] + (rest[0] + t) == ([c] + rest[0]) + t;
    }
  }

  lemma {:induction false} PiecesHaveNoSeparator<T>(s: seq<T>, sep: T)
    ensures forall i :: 0 <= i < |Split(s, sep)| ==> sep !in Split(s, sep)[i]
  {
    if s != [] {
      PiecesHaveNoSeparator(s[1..], sep);
    }
  }

  /** What is in the text, but for separators, is in one of its pieces. */
  lemma {:induction false} PiecesHold<T>(s: seq<T>, sep: T, c: T)
    requires c != sep
    ensures c in s <==> exists i :: 0 <= i < |Split(s, sep)| && c in Split(s, sep)[i]
  {
    if s != [] {
      var parts, rest := Split(s, sep), Split(s[1..], sep);
      PiecesHold(s[1..], sep, c);
      if s[0] == sep {
        assert parts == [[]] + rest;
        if i :| 0 <= i < |rest| && c in rest[i] {
          assert parts[i + 1] == rest[i];
        }
      } else {
        assert parts[0] == [s[0]] + rest[0] && parts[1..] == rest[1..];
        if i :| 0 <= i < |rest| && c in rest[i] {
          assert i > 0 ==> parts[i] == parts[1..][i - 1] == rest[i];
        }
        if i :| 0 <= i < |parts| && c in parts[i] {
          assert i > 0 ==> rest[i] == rest[1..][i - 1] == parts[i];
        }
      }
    } else {
      assert Split(s, sep)[0] == [];
    }
  }

  /** The last piece is what follows the last separator, or everything. */
  lemma {:induction false} LastPiece<T>(s: seq<T>, sep: T)
    ensures var parts := Split(s, sep);
            var last := parts[|parts| - 1];
            sep !in last && (if |parts| == 1 then s == last else EndsWith(s, [sep] + last))
  {
    if s != [] {
      var rest := Split(s[1..], sep);
      LastPiece(s[1..], sep);
      if |rest| > 1 {
        EndsSooner(s, [sep] + rest[|rest| - 1]);
      } else if s[0] == sep {
        assert [sep] + s[1..] == s;
      } else {
        assert [s[0]] + s[1..] == s;
      }
    }
  }

  lemma EndsSooner<T>(s: seq<T>, suffix: seq<T>)
    requires s != [] && EndsWith(s[1..], suffix)
    ensures EndsWith(s, suffix)
  {
    assert s[|s| - |suffix|..] == s[1..][|s[1..]| - |suffix|..];
  }
}
