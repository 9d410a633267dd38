/** A directory tree as `read_dir` shows it, and the keys of its files. */
module FileTree {
  import opened Types
  import opened ByteStrings

  const SLASH: byte := 0x2F
  const DOT: byte := 0x2E

  /** Whatever is not a directory counts as a file. */
  datatype Node = File | Dir(entries: seq<Entry>)

  datatype Entry = Entry(name: bytes, node: Node)

  predicate ValidName(name: bytes) {
    name != [] && SLASH !in name && 0 !in name && name != [DOT] && name != [DOT, DOT]
  }

  /** A file system's guarantee: usable names, each once per directory. */
  ghost predicate ValidEntries(entries: seq<Entry>)
    decreases entries
  {
    && (forall i :: 0 <= i < |entries| ==> ValidName(entries[i].name))
    && (forall i, j :: 0 <= i < j < |entries| ==> entries[i].name != entries[j].name)
    && (forall i :: 0 <= i < |entries| && entries[i].node.Dir? ==> ValidEntries(entries[i].node.entries))
  }

  function JoinKey(prefix: bytes, name: bytes): bytes {
    if prefix == [] then name else prefix + [SLASH] + name
  }

  /** Keys, relative to the directory, of the files below it; names that are not UTF-8 are skipped. */
  function FileKeys(entries: seq<Entry>): set<bytes>
    decreases entries
  {
    if entries == [] then {} else EntryKeys(entries[0]) + FileKeys(entries[1..])
  }

  function EntryKeys(e: Entry): set<bytes>
    decreases e
  {
    if !IsUtf8(e.name) then {}
    else if e.node.File? then {e.name}
    else set k | k in FileKeys(e.node.entries) :: e.name + [SLASH] + k
  }

  // ---- Paths ----

  /** The node that a list of names leads to. */
  ghost function Lookup(entries: seq<Entry>, path: seq<bytes>): Option<Node>
    decreases |path|
  {
    if path == [] then Some(Dir(entries))
    else if i :| 0 <= i < |entries| && entries[i].name == path[0] then
      match entries[i].node
      case File => if |path| == 1 then Some(File) else None
      case Dir(children) => Lookup(children, path[1..])
    else None
  }

  function Join(path: seq<bytes>): bytes {
    if path == [] then []
    else if |path| == 1 then path[0]
    else path[0] + [SLASH] + Join(path[1..])
  }

  predicate ValidPath(path: seq<bytes>) {
    path != [] && forall i :: 0 <= i < |path| ==> ValidName(path[i]) && IsUtf8(path[i])
  }

  /** The first component of a key. */
  function Head(key: bytes): bytes {
    if key == [] || key[0] == SLASH then [] else [key[0]] + Head(key[1..])
  }

  lemma {:induction false} HeadOfJoined(name: bytes, rest: bytes)
    requires SLASH !in name
    ensures Head(name + [SLASH] + rest) == name && Head(name) == name
  {
    if name == [] {
      assert (name + [SLASH] + rest)[0] == SLASH;
    } else {
      assert (name + [SLASH] + rest)[1..] == name[1..] + [SLASH] + rest;
      HeadOfJoined(name[1..], rest);
    }
  }

  /** Distinct files get distinct keys: a slash-joined path can be taken apart again. */
  lemma {:induction false} JoinInjective(p: seq<bytes>, q: seq<bytes>)
    requires ValidPath(p) && ValidPath(q) && Join(p) == Join(q)
    ensures p == q
  {
    HeadOfJoined(p[0], Join(p[1..]));
    HeadOfJoined(q[0], Join(q[1..]));
    assert p[0] == q[0];
    if |p| == 1 || |q| == 1 {
      assert |p| == 1 ==> Join(p) == p[0];
      assert |q| == 1 ==> Join(q) == q[0];
      assert |Join(p)| == |Join(q)|;
    } else {
      assert Join(p)[|p[0]| + 1..] == Join(p[1..]);
      assert Join(q)[|q[0]| + 1..] == Join(q[1..]);
      JoinInjective(p[1..], q[1..]);
      assert p == [p[0]] + p[1..] && q == [q[0]] + q[1..];
    }
  }

  ghost predicate LeadsToFile(entries: seq<Entry>, path: seq<bytes>) {
    ValidPath(path) && Lookup(entries, path) == Some(File)
  }

  /** Whatever entry is picked for a name, it is the one with that name. */
  lemma LookupEntry(entries: seq<Entry>, path: seq<bytes>, i: nat)
    requires ValidEntries(entries) && path != [] && i < |entries| && entries[i].name == path[0]
    ensures Lookup(entries, path) ==
            match entries[i].node
            case File => if |path| == 1 then Some(File) else None
            case Dir(children) => Lookup(children, path[1..])
  {
  }

  lemma LookupMissing(entries: seq<Entry>, path: seq<bytes>)
    requires path != [] && forall i :: 0 <= i < |entries| ==> entries[i].name != path[0]
    ensures Lookup(entries, path) == None
  {
  }

  lemma {:induction false} FileKeysElements(entries: seq<Entry>, k: bytes)
    ensures k in FileKeys(entries) <==> exists i :: 0 <= i < |entries| && k in EntryKeys(entries[i])
  {
    if entries == [] {
    } else {
      FileKeysElements(entries[1..], k);
      if k in FileKeys(entries[1..]) {
        var j :| 0 <= j < |entries[1..]| && k in EntryKeys(entries[1..][j]);
        assert k in EntryKeys(entries[j + 1]);
      }
      if i :| 0 < i < |entries| && k in EntryKeys(entries[i]) {
        assert entries[1..][i - 1] == entries[i];
      }
    }
  }

  lemma FileKeysSnoc(entries: seq<Entry>, n: nat)
    requires n < |entries|
    ensures FileKeys(entries[..n + 1]) == FileKeys(entries[..n]) + EntryKeys(entries[n])
  {
    var a, b := entries[..n], entries[..n + 1];
    forall k ensures k in FileKeys(b) <==> k in FileKeys(a) + EntryKeys(entries[n]) {
      FileKeysElements(a, k);
      FileKeysElements(b, k);
      if i :| 0 <= i < |a| && k in EntryKeys(a[i]) {
        assert b[i] == a[i];
      }
      if k in EntryKeys(entries[n]) {
        assert b[n] == entries[n];
      }
      if j :| 0 <= j < |b| && k in EntryKeys(b[j]) {
        assert j < n ==> a[j] == b[j];
      }
    }
  }

  lemma EntryKeysHead(e: Entry, k: bytes)
    requires ValidName(e.name) && k in EntryKeys(e)
    ensures Head(k) == e.name && k != []
  {
    if e.node.File? {
      HeadOfJoined(e.name, []);
    } else {
      var r :| r in FileKeys(e.node.entries) && k == e.name + [SLASH] + r;
      HeadOfJoined(e.name, r);
    }
  }

  lemma PathUnder(name: bytes, path: seq<bytes>)
    requires path != []
    ensures Join([name] + path) == name + [SLASH] + Join(path)
  {
    assert ([name] + path)[1..] == path;
  }

  /** Every key the walk reports is the slash-joined path of a file. */
  lemma {:induction false} KeyHasPath(entries: seq<Entry>, k: bytes) returns (path: seq<bytes>)
    requires ValidEntries(entries) && k in FileKeys(entries)
    ensures LeadsToFile(entries, path) && Join(path) == k
    decreases entries
  {
    FileKeysElements(entries, k);
    var i :| 0 <= i < |entries| && k in EntryKeys(entries[i]);
    var e := entries[i];
    if e.node.File? {
      path := [e.name];
      LookupEntry(entries, path, i);
    } else {
      var r :| r in FileKeys(e.node.entries) && k == e.name + [SLASH] + r;
      var below := KeyHasPath(e.node.entries, r);
      path := [e.name] + below;
      PathUnder(e.name, below);
      LookupEntry(entries, path, i);
      assert path[1..] == below;
    }
  }

  /** Every file is reported under its slash-joined path. */
  lemma {:induction false} PathHasKey(entries: seq<Entry>, path: seq<bytes>)
    requires ValidEntries(entries) && LeadsToFile(entries, path)
    ensures Join(path) in FileKeys(entries)
    decreases |path|
  {
    if forall i :: 0 <= i < |entries| ==> entries[i].name != path[0] {
      LookupMissing(entries, path);
    } else {
      var i :| 0 <= i < |entries| && entries[i].name == path[0];
      LookupEntry(entries, path, i);
      if |path| > 1 {
        PathHasKey(entries[i].node.entries, path[1..]);
      }
      assert Join(path) in EntryKeys(entries[i]);
      FileKeysElements(entries, Join(path));
    }
  }

  /** The walk reports exactly the files of the tree, each under its own key. */
  lemma WalkFindsExactlyTheFiles(entries: seq<Entry>, path: seq<bytes>)
    requires ValidEntries(entries) && ValidPath(path)
    ensures Join(path) in FileKeys(entries) <==> Lookup(entries, path) == Some(File)
  {
    if Join(path) in FileKeys(entries) {
      var found := KeyHasPath(entries, Join(path));
      JoinInjective(path, found);
    }
    if Lookup(entries, path) == Some(File) {
      PathHasKey(entries, path);
    }
  }

  lemma JoinKeyNested(prefix: bytes, name: bytes, k: bytes)
    requires name != []
    ensures JoinKey(JoinKey(prefix, name), k) == JoinKey(prefix, name + [SLASH] + k)
  {
  }

  lemma JoinKeyInjective(prefix: bytes, a: bytes, b: bytes)
    requires JoinKey(prefix, a) == JoinKey(prefix, b)
    ensures a == b
  {
    if prefix != [] {
      assert JoinKey(prefix, a)[|prefix| + 1..] == a;
      assert JoinKey(prefix, b)[|prefix| + 1..] == b;
    }
  }
}
