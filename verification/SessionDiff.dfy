/** Change detection between a session tree and its base tree, and how a session starts. */
module SessionDiff {
  import opened Prelude
  import opened FileTree

  type Digest = string
  type Files = map<Path, Content>

  datatype FileChange = Added(path: Path) | Modified(path: Path) | Deleted(path: Path)

  datatype FileMetadata = FileMetadata(size: nat, hash: Option<Digest>)

  /** The digest tells apart every pair of contents that the two trees hold at one path. */
  ghost predicate DigestSound(hash: Content -> Digest, s: Files, b: Files) {
    forall p :: p in s && p in b && |s[p]| == |b[p]| && hash(s[p]) == hash(b[p]) ==> s[p] == b[p]
  }

  ghost predicate Listed(c: FileChange, hash: Content -> Digest, s: Files, b: Files) {
    match c
    case Added(p) => p in s && p !in b
    case Modified(p) => p in s && p in b && (|s[p]| != |b[p]| || hash(s[p]) != hash(b[p]))
    case Deleted(p) => p in b && p !in s
  }

  /** `changes` lists exactly the visible differences, each once, in any order. */
  ghost predicate IsDiff(changes: seq<FileChange>, hash: Content -> Digest, s: Files, b: Files) {
    NoDup(changes) && forall c :: c in changes <==> Listed(c, hash, s, b)
  }

  function Writes(changes: seq<FileChange>): set<Path> {
    set c | c in changes && !c.Deleted? :: c.path
  }

  function Removals(changes: seq<FileChange>): set<Path> {
    set c | c in changes && c.Deleted? :: c.path
  }

  /** What applying a change list relies on: one entry a path, every addition and
      deletion listed, every write present in the session. */
  ghost predicate Consistent(changes: seq<FileChange>, s: Files, b: Files) {
    && (forall i, j :: 0 <= i < j < |changes| ==> changes[i].path != changes[j].path)
    && Writes(changes) <= s.Keys
    && (forall p :: p in Removals(changes) <==> p in b && p !in s)
    && (forall p :: p in s && p !in b ==> p in Writes(changes))
  }

  /** The session's paths, with its content where it was written and the base's elsewhere. */
  function Combine(written: set<Path>, s: Files, b: Files): Files {
    map p | p in s && (p in written || p in b) :: if p in written then s[p] else b[p]
  }

  /** The base's files once the listed changes are applied. */
  function Merged(changes: seq<FileChange>, s: Files, b: Files): Files {
    Combine(Writes(changes), s, b)
  }

  lemma DiffIsConsistent(changes: seq<FileChange>, hash: Content -> Digest, s: Files, b: Files)
    requires IsDiff(changes, hash, s, b)
    ensures Consistent(changes, s, b)
    ensures Merged(changes, s, b) == s <==> DigestSound(hash, s, b)
  {
    forall p | p in b && p !in s ensures p in Removals(changes) {
      assert Listed(Deleted(p), hash, s, b);
    }
    forall p | p in s && p !in b ensures p in Writes(changes) {
      assert Listed(Added(p), hash, s, b);
    }
    forall p | p in s && p in b
      ensures p in Writes(changes) <==> |s[p]| != |b[p]| || hash(s[p]) != hash(b[p])
    {
      assert Listed(Modified(p), hash, s, b) <==> Modified(p) in changes;
    }
    forall i, j | 0 <= i < j < |changes| ensures changes[i].path != changes[j].path {
      assert Listed(changes[i], hash, s, b) && Listed(changes[j], hash, s, b);
    }
    var m := Merged(changes, s, b);
    assert m.Keys == s.Keys;
    if m == s {
      forall p | p in s && p in b && |s[p]| == |b[p]| && hash(s[p]) == hash(b[p]) ensures s[p] == b[p] {
        assert m[p] == b[p];
      }
    }
    if DigestSound(hash, s, b) {
      forall p | p in s ensures m[p] == s[p] {}
    }
  }

  /** A session that was not edited yields the empty list, whatever the digest. */
  lemma UnchangedSessionHasNoDiff(changes: seq<FileChange>, hash: Content -> Digest, s: Files, b: Files)
    requires IsDiff(changes, hash, s, b)
    ensures s == b ==> changes == []
    ensures changes == [] ==>
              s.Keys == b.Keys && forall p :: p in s ==> |s[p]| == |b[p]| && hash(s[p]) == hash(b[p])
  {
    if changes == [] {
      forall p ensures p in s ==> p in b && |s[p]| == |b[p]| && hash(s[p]) == hash(b[p]) {
        assert !Listed(Added(p), hash, s, b) && !Listed(Modified(p), hash, s, b);
      }
      forall p ensures p in b ==> p in s {
        assert !Listed(Deleted(p), hash, s, b);
      }
    } else {
      assert Listed(changes[0], hash, s, b);
    }
  }

  /** Collects size and (not yet computed) digest of every file below the root. */
  method ScanDirectory(root: FileSystem) returns (m: map<Path, FileMetadata>)
    ensures m.Keys == root.tree.files.Keys
    ensures forall p :: p in m ==> m[p] == FileMetadata(|root.tree.files[p]|, None)
  {
    m := map[];
    var todo := root.tree.files.Keys + root.tree.dirs;
    while todo != {}
      invariant todo <= root.tree.files.Keys + root.tree.dirs
      invariant m.Keys == root.tree.files.Keys - todo
      invariant forall p :: p in m ==> m[p] == FileMetadata(|root.tree.files[p]|, None)
    {
      var p :| p in todo;
      if p in root.tree.files {
        m := m[p := FileMetadata(|root.tree.files[p]|, None)];
      }
      todo := todo - {p};
    }
  }

  /** The recorded digest if there is one, else the digest of the contents. */
  function DigestOf(meta: FileMetadata, hash: Content -> Digest, c: Content): Digest {
    match meta.hash
    case Some(h) => h
    case None => hash(c)
  }

  lemma DiffListsExactly(changes: seq<FileChange>, hash: Content -> Digest, s: Files, b: Files)
    requires IsDiff(changes, hash, s, b)
    ensures forall p :: Added(p) in changes <==> p in s && p !in b
    ensures forall p :: Deleted(p) in changes <==> p in b && p !in s
    ensures forall p :: Modified(p) in changes ==> p in s && p in b
    ensures forall p :: p in s && p in b ==>
              (Modified(p) in changes <==> |s[p]| != |b[p]| || hash(s[p]) != hash(b[p]))
  {
    forall p
      ensures Added(p) in changes <==> p in s && p !in b
      ensures Deleted(p) in changes <==> p in b && p !in s
      ensures Modified(p) in changes <==> p in s && p in b && (|s[p]| != |b[p]| || hash(s[p]) != hash(b[p]))
    {
      assert Added(p) in changes <==> Listed(Added(p), hash, s, b);
      assert Deleted(p) in changes <==> Listed(Deleted(p), hash, s, b);
      assert Modified(p) in changes <==> Listed(Modified(p), hash, s, b);
    }
  }

  /** Both loops visit their map in an arbitrary order. */
  method ComputeDiff(session: FileSystem, base: FileSystem, hash: Content -> Digest)
    returns (changes: seq<FileChange>)
    ensures IsDiff(changes, hash, session.tree.files, base.tree.files) && NoDup(changes)
    ensures forall p :: Added(p) in changes <==> p in session.tree.files && p !in base.tree.files
    ensures forall p :: Deleted(p) in changes <==> p in base.tree.files && p !in session.tree.files
    ensures forall p :: Modified(p) in changes ==> p in session.tree.files && p in base.tree.files
    ensures forall p :: p in session.tree.files && p in base.tree.files ==>
              (Modified(p) in changes
               <==> || |session.tree.files[p]| != |base.tree.files[p]|
                    || hash(session.tree.files[p]) != hash(base.tree.files[p]))
  {
    var sessionFiles := ScanDirectory(session);
    var baseFiles := ScanDirectory(base);
    ghost var s, b := session.tree.files, base.tree.files;
    changes := [];
    var todo := sessionFiles.Keys;
    while todo != {}
      invariant todo <= s.Keys && NoDup(changes)
      invariant forall c :: c in changes <==> !c.Deleted? && c.path !in todo && Listed(c, hash, s, b)
    {
      var p :| p in todo;
      todo := todo - {p};
      if p in baseFiles {
        if sessionFiles[p].size != baseFiles[p].size {
          changes := changes + [Modified(p)];
          continue;
        }
        var sHash := DigestOf(sessionFiles[p], hash, session.tree.files[p]);
        var bHash := DigestOf(baseFiles[p], hash, base.tree.files[p]);
        if sHash != bHash {
          changes := changes + [Modified(p)];
        }
      } else {
        changes := changes + [Added(p)];
      }
    }
    todo := baseFiles.Keys;
    while todo != {}
      invariant todo <= b.Keys && NoDup(changes)
      invariant forall c :: c in changes <==> (c.Deleted? ==> c.path !in todo) && Listed(c, hash, s, b)
    {
      var p :| p in todo;
      todo := todo - {p};
      if p !in sessionFiles {
        changes := changes + [Deleted(p)];
      }
    }
    DiffListsExactly(changes, hash, s, b);
  }

  /** A directory walk: every entry below the root once, each after its parent. */
  ghost predicate IsWalk(walk: seq<Path>, t: Tree) {
    && NoDup(walk)
    && (forall p :: p in walk <==> (p in t.files || p in t.dirs) && p != [])
    && forall i :: 0 <= i < |walk| ==> walk[i] != [] && (Parent(walk[i]) == [] || Parent(walk[i]) in walk[..i])
  }

  /** The part of `t` that has been copied once the entries in `done` were visited. */
  ghost function Copied(t: Tree, done: seq<Path>): Tree {
    Tree(map p | p in t.files && p in done :: t.files[p], set d | d in t.dirs && (d == [] || d in done))
  }

  lemma AncestorsCopied(walk: seq<Path>, t: Tree, i: nat, q: Path)
    requires t.WellFormed() && IsWalk(walk, t) && i < |walk| && Below(q, walk[i])
    ensures q in Copied(t, walk[..i]).dirs
    decreases i
  {
    var p := walk[i];
    assert p in walk;
    assert Below(Parent(p), p);
    if Parent(p) != [] && q != Parent(p) {
      var k :| 0 <= k < i && walk[k] == Parent(p);
      AncestorsCopied(walk, t, k, q);
    }
  }

  lemma CopyOneMore(walk: seq<Path>, t: Tree, i: nat)
    requires t.WellFormed() && IsWalk(walk, t) && i < |walk|
    ensures forall q :: q <= walk[i] && q != walk[i] ==> q in Copied(t, walk[..i]).dirs
    ensures var a, b := Copied(t, walk[..i]), Copied(t, walk[..i + 1]);
            if walk[i] in t.dirs then b == Tree(a.files, a.dirs + Prefixes(walk[i]))
            else walk[i] in t.files && b == Tree(a.files[walk[i] := t.files[walk[i]]], a.dirs)
  {
    var p := walk[i];
    assert p in walk;
    assert walk[..i + 1] == walk[..i] + [p];
    forall q | q <= p && q != p ensures q in Copied(t, walk[..i]).dirs {
      AncestorsCopied(walk, t, i, q);
    }
    var a, b := Copied(t, walk[..i]), Copied(t, walk[..i + 1]);
    if p in t.dirs {
      assert b.files == a.files;
      forall d ensures d in b.dirs <==> d in a.dirs || d in Prefixes(p) {
        if d in Prefixes(p) && d != p {
          AncestorsCopied(walk, t, i, d);
        }
      }
    } else {
      assert b.files == a.files[p := t.files[p]];
      assert b.dirs == a.dirs;
    }
  }

  /** Copies the `i`-th entry of the walk. */
  method CopyEntry(src: FileSystem, dst: FileSystem, walk: seq<Path>, i: nat) returns (r: Outcome<IoError>)
    requires src != dst && src.Valid() && dst.Valid() && IsWalk(walk, src.tree) && i < |walk|
    requires dst.tree == Copied(src.tree, walk[..i])
    modifies dst
    ensures dst.Valid()
    ensures r.Pass? ==> dst.tree == Copied(src.tree, walk[..i + 1])
    ensures r.Fail? ==> r.error == Fault && dst.mayFault
  {
    var p := walk[i];
    assert p in walk;
    ghost var before := dst.tree;
    CopyOneMore(walk, src.tree, i);
    if p in src.tree.dirs {
      r := dst.CreateDirAll(p);
    } else {
      assert Below(Parent(p), p) && p !in before.dirs;
      r := dst.Copy(src, p, p);
    }
  }

  /** How a session starts: the new tree becomes a copy of the base, or the device failed. */
  method CopyTree(src: FileSystem, dst: FileSystem, walk: seq<Path>) returns (r: Outcome<IoError>)
    requires src != dst && src.Valid() && dst.Valid()
    requires dst.tree == Tree(map[], {[]})
    requires IsWalk(walk, src.tree)
    modifies dst
    ensures dst.Valid()
    ensures r.Pass? ==> dst.tree == src.tree
    ensures r.Fail? ==> r.error == Fault && dst.mayFault
  {
    var i := 0;
    assert dst.tree == Copied(src.tree, walk[..0]);
    while i < |walk|
      invariant 0 <= i <= |walk| && dst.Valid()
      invariant dst.tree == Copied(src.tree, walk[..i])
    {
      r := CopyEntry(src, dst, walk, i);
      if r.Fail? {
        return;
      }
      i := i + 1;
    }
    assert walk[..i] == walk;
    assert Copied(src.tree, walk) == src.tree;
    return Pass;
  }
}
