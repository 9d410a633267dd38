/**
 * Where an upload name leads.
 *
 * A name is joined to the multipart directory without validation, so a name with slashes or dots can
 * lead to another place than a directory of its own.
 */
module UploadPlaces {
  import opened Types
  import opened Keys

  /** An absolute path as its pieces. */
  type Place = seq<string>

  const MULTIPART := ".multipart"
  const META := ".meta.json"

  function Up(at: Place): Place {
    if at == [] then [] else at[..|at| - 1]
  }

  function Go(at: Place, piece: string): Place {
    if piece == "" || piece == "." then at
    else if piece == ".." then Up(at)
    else at + [piece]
  }

  function Walk(at: Place, pieces: seq<string>): Place
    decreases |pieces|
  {
    if pieces == [] then at else Walk(Go(at, pieces[0]), pieces[1..])
  }

  /** Path lookup: every piece is looked up in an existing directory. The last need not exist. */
  function Follow(dirs: set<Place>, at: Place, pieces: seq<string>): Option<Place>
    decreases |pieces|
  {
    if pieces == [] then Some(at)
    else if at !in dirs then None
    else Follow(dirs, Go(at, pieces[0]), pieces[1..])
  }

  /** The lookup comes to a file where it needs a directory. */
  predicate Blocked(files: set<Place>, dirs: set<Place>, at: Place, pieces: seq<string>)
    decreases |pieces|
  {
    pieces != [] && if at in dirs then Blocked(files, dirs, Go(at, pieces[0]), pieces[1..]) else at in files
  }

  /** An absolute name replaces what it is joined to. */
  function Start(root: Place, name: string): Place {
    if name != "" && name[0] == '/' then [] else root
  }

  /** The place a name leads to, by its spelling. */
  function PlaceOf(root: Place, name: string): Place {
    Walk(Start(root, name), Split(name, '/'))
  }

  /** The place a name leads to, if the directories on the way are there. */
  function Reach(dirs: set<Place>, root: Place, name: string): Option<Place> {
    Follow(dirs, Start(root, name), Split(name, '/'))
  }

  /** One directory below the multipart directory, as a fresh name gives. */
  predicate Plain(name: string) {
    name != "" && name != "." && name != ".." && '/' !in name
  }

  /** The place is the directory of one upload. */
  predicate IsUploadPlace(root: Place, q: Place) {
    |q| == |root| + 1 && root <= q
  }

  /** All directories on the way to a place. */
  function Prefixes(q: Place): set<Place> {
    set i | 0 <= i < |q| :: q[..i]
  }

  lemma {:induction false} FollowIsWalk(dirs: set<Place>, at: Place, pieces: seq<string>)
    ensures Follow(dirs, at, pieces).Some? ==> Follow(dirs, at, pieces).value == Walk(at, pieces)
    decreases |pieces|
  {
    if pieces != [] && at in dirs {
      FollowIsWalk(dirs, Go(at, pieces[0]), pieces[1..]);
    }
  }

  lemma {:induction false} FollowIsNotBlocked(files: set<Place>, dirs: set<Place>, at: Place, pieces: seq<string>)
    requires Follow(dirs, at, pieces).Some?
    ensures !Blocked(files, dirs, at, pieces)
    decreases |pieces|
  {
    if pieces != [] {
      FollowIsNotBlocked(files, dirs, Go(at, pieces[0]), pieces[1..]);
    }
  }

  lemma ReachIsPlace(dirs: set<Place>, root: Place, name: string)
    ensures Reach(dirs, root, name).Some? ==> Reach(dirs, root, name).value == PlaceOf(root, name)
  {
    FollowIsWalk(dirs, Start(root, name), Split(name, '/'));
  }

  /** Without double dots a walk only goes down, along the pieces that count. */
  lemma {:induction false} WalkIsKept(at: Place, pieces: seq<string>)
    requires ".." !in pieces
    ensures Walk(at, pieces) == at + Kept(pieces, '.')
    decreases |pieces|
  {
    if pieces != [] {
      WalkIsKept(Go(at, pieces[0]), pieces[1..]);
      assert "." == ['.'];
    }
  }

  /** A plain name leads to a directory of its own. */
  lemma PlainPlace(dirs: set<Place>, root: Place, name: string)
    requires Plain(name)
    ensures PlaceOf(root, name) == root + [name] && IsUploadPlace(root, PlaceOf(root, name))
    ensures Reach(dirs, root, name) == if root in dirs then Some(root + [name]) else None
  {
    SplitWithout(name, '/');
    assert [name][1..] == [];
    assert Walk(root + [name], []) == root + [name];
    assert Follow(dirs, root + [name], []) == Some(root + [name]);
  }

  /** A leading dot makes another spelling of the same place. */
  lemma DotSpelling(root: Place, name: string)
    requires Plain(name)
    ensures PlaceOf(root, "./" + name) == PlaceOf(root, name)
  {
    assert "./" + name == "." + ['/'] + name;
    SplitConcat(".", name, '/');
    SplitWithout(".", '/');
    SplitWithout(name, '/');
    var pieces := Split("./" + name, '/');
    assert pieces == ["."] + [name] && pieces[1..] == [name];
  }

  /** The directories that a walk passes. */
  function Passed(at: Place, pieces: seq<string>): set<Place>
    decreases |pieces|
  {
    if pieces == [] then {} else {at} + Passed(Go(at, pieces[0]), pieces[1..])
  }

  lemma {:induction false} FollowNeedsPassed(dirs: set<Place>, at: Place, pieces: seq<string>)
    requires Follow(dirs, at, pieces).Some?
    ensures Passed(at, pieces) <= dirs
    decreases |pieces|
  {
    if pieces != [] {
      FollowNeedsPassed(dirs, Go(at, pieces[0]), pieces[1..]);
    }
  }

  lemma {:induction false} FollowPassed(dirs: set<Place>, at: Place, pieces: seq<string>)
    requires Passed(at, pieces) <= dirs
    ensures Follow(dirs, at, pieces) == Some(Walk(at, pieces))
    decreases |pieces|
  {
    if pieces != [] {
      FollowPassed(dirs, Go(at, pieces[0]), pieces[1..]);
    }
  }

  /** Double dots lead to the parent, so a name can lead to a bucket. */
  lemma ParentSpelling(root: Place, name: string)
    requires Plain(name) && root != []
    ensures PlaceOf(root, "../" + name) == root[..|root| - 1] + [name]
  {
    assert "../" + name == ".." + ['/'] + name;
    SplitConcat("..", name, '/');
    SplitWithout("..", '/');
    SplitWithout(name, '/');
    var pieces := Split("../" + name, '/');
    assert pieces == [".."] + [name] && pieces[1..] == [name];
    assert Walk(Up(root), [name]) == Walk(Up(root) + [name], []) by { assert [name][1..] == []; }
  }

  /** A leading slash leaves the multipart directory altogether. */
  lemma AbsoluteSpelling(root: Place, name: string)
    requires Plain(name)
    ensures PlaceOf(root, "/" + name) == [name]
  {
    assert "/" + name == "" + ['/'] + name;
    SplitConcat("", name, '/');
    SplitWithout("", '/');
    SplitWithout(name, '/');
    var pieces := Split("/" + name, '/');
    assert pieces == [""] + [name] && pieces[1..] == [name];
    assert Walk([], [name]) == Walk([name], []) by { assert [name][1..] == []; }
  }

  /** A name that goes on below a file is an error of its own. */
  lemma SpellingThroughFile(files: set<Place>, dirs: set<Place>, root: Place, name: string, rest: string)
    requires Plain(name) && '/' !in rest && root in dirs && root + [name] !in dirs
    ensures Reach(dirs, root, name + "/" + rest).None?
    ensures Blocked(files, dirs, Start(root, name + "/" + rest), Split(name + "/" + rest, '/')) <==> root + [name] in files
  {
    SplitConcat(name, rest, '/');
    SplitWithout(name, '/');
    SplitWithout(rest, '/');
    var pieces := Split(name + "/" + rest, '/');
    assert pieces == [name] + [rest] && pieces[1..] == [rest];
    assert (name + "/" + rest)[0] == name[0] != '/';
    assert Go(root, name) == root + [name];
    assert Follow(dirs, root + [name], [rest]).None?;
  }
}
