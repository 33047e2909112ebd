/** A rooted directory tree and the file-system calls the session code makes on it. */
module FileTree {
  import opened Prelude

  type Name = string
  type Path = seq<Name>
  type Content = seq<bv8>

  /** `NotFound`: the source is missing. `Clash`: a file stands where a directory is
      needed or the other way round. `Fault`: the device failed. */
  datatype IoError = NotFound | Clash | Fault

  /** `q` is a proper ancestor of `p`. */
  predicate Below(q: Path, p: Path) { q < p }

  /** `p` is `top` or lies under it. */
  predicate Within(p: Path, top: Path) { top <= p }

  function Parent(p: Path): Path
    requires p != []
  {
    p[..|p| - 1]
  }

  /** Paths are relative to the root of the tree, which is the path `[]`. */
  datatype Tree = Tree(files: map<Path, Content>, dirs: set<Path>) {
    ghost predicate WellFormed() {
      && [] in dirs
      && (forall p :: p in files ==> p !in dirs)
      && (forall p, q :: p in files && Below(q, p) ==> q in dirs)
      && (forall p, q :: p in dirs && Below(q, p) ==> q in dirs)
    }
  }

  function Prefixes(p: Path): (s: set<Path>)
    ensures forall q :: q in s <==> q <= p
  {
    var s := set k | 0 <= k <= |p| :: p[..k];
    assert forall q :: q <= p ==> q == p[..|q|];
    s
  }

  /** The two file maps agree everywhere except possibly within `top`. */
  ghost predicate AgreeOutside(m: map<Path, Content>, n: map<Path, Content>, top: Path) {
    forall p :: !Within(p, top) ==> Get(m, p) == Get(n, p)
  }

  /** Every file map recorded from index `from` on differs from `files` at most at `p`. */
  ghost predicate RecordedExcept(h: seq<map<Path, Content>>, from: nat, files: map<Path, Content>, p: Path) {
    from <= |h| && forall i :: from <= i < |h| ==> h[i] - {p} == files - {p}
  }

  /** Every file map recorded from index `from` on is `files` with files within `top` removed. */
  ghost predicate RecordedRemoval(h: seq<map<Path, Content>>, from: nat, files: map<Path, Content>, top: Path) {
    && from <= |h|
    && forall i :: from <= i < |h| ==> AgreeOutside(h[i], files, top) && h[i].Keys <= files.Keys
  }

  /** `t` without `top` and everything below it. */
  function WithoutTree(t: Tree, top: Path): Tree {
    Tree(map q | q in t.files && !Within(q, top) :: t.files[q], set d | d in t.dirs && !Within(d, top))
  }

  lemma WithoutIsWellFormed(t: Tree, top: Path)
    requires t.WellFormed() && top != []
    ensures WithoutTree(t, top).WellFormed()
  {
    forall p, q | Below(q, p) && !Within(p, top) ensures !Within(q, top) {
      assert Within(q, top) ==> Within(p, top);
    }
  }

  lemma FilesGone(t: Tree, t0: Tree, top: Path)
    requires t.dirs == t0.dirs && AgreeOutside(t.files, t0.files, top) && t.files.Keys <= t0.files.Keys
    requires forall q :: q in t.files ==> !Within(q, top)
    ensures WithoutTree(t, top) == WithoutTree(t0, top) && WithoutTree(t, top).files == t.files
  {
    forall q | q in t0.files && !Within(q, top) ensures q in t.files && t.files[q] == t0.files[q] {
      assert Get(t.files, q) == Get(t0.files, q);
    }
  }

  class FileSystem {
    var tree: Tree
    /** Whether the device may fail; if not, calls fail only for `NotFound` and `Clash`. */
    const mayFault: bool
    /** Every value the file map has taken: what a crash could leave behind. */
    ghost var history: seq<map<Path, Content>>

    ghost predicate Valid() reads this {
      tree.WellFormed() && history != [] && history[|history| - 1] == tree.files
    }

    constructor (mayFault: bool)
      ensures Valid() && this.mayFault == mayFault
      ensures tree == Tree(map[], {[]}) && history == [map[]]
    {
      tree := Tree(map[], {[]});
      this.mayFault := mayFault;
      history := [map[]];
    }

    predicate Exists(p: Path) reads this { p in tree.files || p in tree.dirs }

    /** Creates `p` and its missing ancestors; a fault may leave only some of them. */
    method CreateDirAll(p: Path) returns (r: Outcome<IoError>)
      requires Valid()
      modifies this
      ensures Valid() && tree.files == old(tree.files) && history == old(history)
      ensures r.Pass? ==> tree.dirs == old(tree.dirs) + Prefixes(p)
      ensures r.Fail? ==> old(tree.dirs) <= tree.dirs <= old(tree.dirs) + Prefixes(p)
      ensures r == Fail(Clash) ==> exists q :: q <= p && q in tree.files
      ensures r.Fail? ==> r.error == Clash || (r.error == Fault && mayFault)
    {
      if exists k | 0 <= k <= |p| :: p[..k] in tree.files {
        return Fail(Clash);
      }
      assert forall q :: q <= p ==> q == p[..|q|];
      var fault: bool := *;
      if mayFault && fault {
        var k: int := *;
        if 0 <= k <= |p| {
          tree := tree.(dirs := tree.dirs + Prefixes(p[..k]));
        }
        return Fail(Fault);
      }
      tree := tree.(dirs := tree.dirs + Prefixes(p));
      return Pass;
    }

    /** Copies a file of `src`; a fault may leave any content at `to`. */
    method Copy(src: FileSystem, from: Path, to: Path) returns (r: Outcome<IoError>)
      requires Valid() && src != this
      modifies this
      ensures Valid() && tree.dirs == old(tree.dirs)
      ensures r.Pass? ==> from in src.tree.files && tree.files == old(tree.files)[to := src.tree.files[from]]
      ensures r.Fail? ==> tree.files - {to} == old(tree.files) - {to}
      ensures old(history) <= history
      ensures RecordedExcept(history, |old(history)|, old(tree.files), to)
      ensures r.Fail? ==>
                || (r.error == NotFound && from !in src.tree.files)
                || (r.error == Clash && (to == [] || to in tree.dirs || Parent(to) !in tree.dirs))
                || (r.error == Fault && mayFault)
    {
      if from !in src.tree.files {
        return Fail(NotFound);
      }
      if to == [] || to in tree.dirs || Parent(to) !in tree.dirs {
        return Fail(Clash);
      }
      forall q | Below(q, to) ensures q in tree.dirs {
        assert q == Parent(to) || Below(q, Parent(to));
      }
      var fault: bool := *;
      if mayFault && fault {
        var partial: Content := *;
        tree := tree.(files := tree.files[to := partial]);
        history := history + [tree.files];
        return Fail(Fault);
      }
      ghost var partial: Content := *;
      history := history + [tree.files[to := partial]];
      tree := tree.(files := tree.files[to := src.tree.files[from]]);
      history := history + [tree.files];
      return Pass;
    }

    method RemoveFile(p: Path) returns (r: Outcome<IoError>)
      requires Valid()
      modifies this
      ensures Valid() && tree.dirs == old(tree.dirs)
      ensures r.Pass? ==> p in old(tree.files) && tree.files == old(tree.files) - {p}
      ensures r.Pass? ==> history == old(history) + [tree.files]
      ensures r.Fail? ==> tree == old(tree) && history == old(history)
      ensures r.Fail? ==> (r.error == NotFound && p !in old(tree.files)) || (r.error == Fault && mayFault)
    {
      if p !in tree.files {
        return Fail(NotFound);
      }
      var fault: bool := *;
      if mayFault && fault {
        return Fail(Fault);
      }
      tree := tree.(files := tree.files - {p});
      history := history + [tree.files];
      return Pass;
    }

    /** Moves a file in one step, replacing a file that is already at `to`. */
    method Rename(from: Path, to: Path) returns (r: Outcome<IoError>)
      requires Valid()
      modifies this
      ensures Valid() && tree.dirs == old(tree.dirs)
      ensures r.Pass? ==> from in old(tree.files)
                          && tree.files == (old(tree.files) - {from})[to := old(tree.files)[from]]
                          && history == old(history) + [tree.files]
      ensures r.Fail? ==> tree == old(tree) && history == old(history)
      ensures r.Fail? ==>
                || (r.error == NotFound && from !in tree.files)
                || (r.error == Clash && (to == [] || to in tree.dirs || Parent(to) !in tree.dirs))
                || (r.error == Fault && mayFault)
    {
      if from !in tree.files {
        return Fail(NotFound);
      }
      if to == [] || to in tree.dirs || Parent(to) !in tree.dirs {
        return Fail(Clash);
      }
      forall q | Below(q, to) ensures q in tree.dirs {
        assert q == Parent(to) || Below(q, Parent(to));
      }
      var fault: bool := *;
      if mayFault && fault {
        return Fail(Fault);
      }
      var moved := tree.files[from];
      tree := tree.(files := (tree.files - {from})[to := moved]);
      history := history + [tree.files];
      return Pass;
    }

    /** Removes the files within `p` one by one; a fault may leave some. */
    method RemoveFilesWithin(p: Path) returns (r: Outcome<IoError>)
      requires Valid()
      modifies this
      ensures Valid() && tree.dirs == old(tree.dirs)
      ensures AgreeOutside(tree.files, old(tree.files), p) && tree.files.Keys <= old(tree.files).Keys
      ensures r.Pass? ==> forall q :: q in tree.files ==> !Within(q, p)
      ensures old(history) <= history
      ensures RecordedRemoval(history, |old(history)|, old(tree.files), p)
      ensures r.Fail? ==> r.error == Fault && mayFault
    {
      var todo := set q | q in tree.files && Within(q, p);
      while todo != {}
        invariant Valid() && tree.dirs == old(tree.dirs)
        invariant forall q :: q in todo <==> q in tree.files && Within(q, p)
        invariant AgreeOutside(tree.files, old(tree.files), p) && tree.files.Keys <= old(tree.files).Keys
        invariant old(history) <= history
        invariant RecordedRemoval(history, |old(history)|, old(tree.files), p)
      {
        var fault: bool := *;
        if mayFault && fault {
          return Fail(Fault);
        }
        var q :| q in todo;
        tree := tree.(files := tree.files - {q});
        history := history + [tree.files];
        todo := todo - {q};
      }
      return Pass;
    }

    method RemoveEmptyDirs(p: Path)
      requires Valid() && p != [] && forall q :: q in tree.files ==> !Within(q, p)
      modifies this
      ensures Valid() && tree == WithoutTree(old(tree), p) && tree.files == old(tree.files) && history == old(history)
    {
      var t := WithoutTree(tree, p);
      WithoutIsWellFormed(tree, p);
      assert t.files == tree.files;
      tree := t;
    }

    /** Removes a directory with all its entries; a fault may leave some. */
    method RemoveDirAll(p: Path) returns (r: Outcome<IoError>)
      requires Valid() && p != []
      modifies this
      ensures Valid()
      ensures r.Pass? ==> tree == WithoutTree(old(tree), p)
      ensures AgreeOutside(tree.files, old(tree.files), p) && tree.files.Keys <= old(tree.files).Keys
      ensures tree.dirs <= old(tree.dirs) && forall d :: d in old(tree.dirs) && !Within(d, p) ==> d in tree.dirs
      ensures old(history) <= history
      ensures RecordedRemoval(history, |old(history)|, old(tree.files), p)
      ensures r.Fail? ==> (r.error == Clash && p !in old(tree.dirs)) || (r.error == Fault && mayFault)
    {
      if p !in tree.dirs {
        return Fail(Clash);
      }
      r := RemoveFilesWithin(p);
      var fault: bool := *;
      if r.Fail? || (mayFault && fault) {
        return Fail(Fault);
      }
      ghost var t := tree;
      RemoveEmptyDirs(p);
      FilesGone(t, old(tree), p);
      return Pass;
    }
  }
}
