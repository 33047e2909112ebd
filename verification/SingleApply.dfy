/** Applying changes one at a time, and how that compares with the staged apply. */
module SingleApply {
  import opened Prelude
  import opened FileTree
  import opened SessionDiff
  import opened StagedApply

  predicate FileAbove(files: Files, p: Path) {
    exists k :: 0 <= k < |p| && p[..k] in files
  }

  /** The tree after one change, or the error on a device that does not fail. */
  function SingleChange(t: Tree, s: Files, c: FileChange): Result<Tree, IoError>
    requires c.path != []
  {
    var p := c.path;
    if c.Deleted? then
      if p in t.dirs then Ok(WithoutTree(t, p)) else Ok(Tree(t.files - {p}, t.dirs))
    else if FileAbove(t.files, p) then Err(Clash)
    else if p !in s then Err(NotFound)
    else
      var clear := WithoutTree(Tree(t.files, t.dirs + Prefixes(Parent(p))), p);
      Ok(Tree(clear.files[p := s[p]], clear.dirs))
  }

  method ApplySingleChange(session: FileSystem, base: FileSystem, change: FileChange) returns (r: Outcome<IoError>)
    requires session != base && session.Valid() && base.Valid() && change.path != []
    modifies base
    ensures base.Valid()
    ensures r.Pass? ==> SingleChange(old(base.tree), session.tree.files, change) == Ok(base.tree)
    ensures r.Fail? ==> || (r.error == Fault && base.mayFault)
                        || SingleChange(old(base.tree), session.tree.files, change) == Err(r.error)
  {
    var p := change.path;
    ghost var t0 := base.tree;
    if !change.Deleted? {
      assert Below(Parent(p), p) && !Within(Parent(p), p) && Within(p, p);
      assert forall q :: Below(q, p) <==> q <= Parent(p);
      assert FileAbove(t0.files, p) <==> exists q :: q <= Parent(p) && q in t0.files by {
        if q :| q <= Parent(p) && q in t0.files {
          assert q == p[..|q|];
        }
      }
      r := base.CreateDirAll(Parent(p));
      if r.Fail? {
        return;
      }
      if p in base.tree.dirs {
        r := base.RemoveDirAll(p);
        if r.Fail? {
          return;
        }
      }
      NothingInside(t0, p);
      assert base.tree.dirs == WithoutTree(Tree(t0.files, t0.dirs + Prefixes(Parent(p))), p).dirs;
      ghost var t1 := base.tree;
      r := base.Copy(session, p, p);
      if r.Pass? {
        assert base.tree.files == WithoutTree(t0, p).files[p := session.tree.files[p]];
      }
    } else {
      if base.Exists(p) {
        if p in base.tree.dirs {
          r := base.RemoveDirAll(p);
        } else {
          r := base.RemoveFile(p);
        }
        return;
      }
      assert base.tree.files - {p} == base.tree.files;
      return Pass;
    }
  }

  /** Below a path that is not a directory there is nothing. */
  lemma NothingInside(t: Tree, p: Path)
    requires t.WellFormed()
    ensures p !in t.dirs ==> forall q :: Within(q, p) && q != p ==> q !in t.files && q !in t.dirs
  {}

  /** The changes applied one after the other, stopping at the first error. */
  function FoldSingle(t: Tree, s: Files, changes: seq<FileChange>): Result<Tree, IoError>
    requires forall c :: c in changes ==> c.path != []
    decreases |changes|
  {
    if changes == [] then Ok(t)
    else
      var r := SingleChange(t, s, changes[0]);
      if r.Err? then r else FoldSingle(r.value, s, changes[1..])
  }

  /** No write precedes the deletion of a file that stands where the write needs a directory. */
  ghost predicate ParentsFreedFirst(changes: seq<FileChange>) {
    forall i, j :: 0 <= i < j < |changes| && !changes[i].Deleted? && changes[j].Deleted? ==>
                     !Below(changes[j].path, changes[i].path)
  }

  /** The file map after the writes in `written` and the deletions in `removed`; a write
      also wipes everything below its path. */
  ghost predicate Halfway(files: Files, written: set<Path>, removed: set<Path>, s: Files, b: Files) {
    forall p {:trigger Get(files, p)} ::
      Get(files, p) == if p in written then Get(s, p)
                       else if p in removed || (exists r :: r in written && Below(r, p)) then None
                       else Get(b, p)
  }

  /** What still has to be done, given what was done. */
  ghost predicate Remaining(rest: seq<FileChange>, written: set<Path>, removed: set<Path>, s: Files, b: Files) {
    && (forall i, j :: 0 <= i < j < |rest| ==> rest[i].path != rest[j].path)
    && written <= s.Keys && Writes(rest) <= s.Keys && written !! Writes(rest)
    && removed !! Removals(rest) && removed !! s.Keys
    && (forall p :: p in removed || p in Removals(rest) <==> p in b && p !in s)
    && (forall p :: p in s && p !in b ==> p in written || p in Writes(rest))
  }

  lemma {:induction false} SingleChangeKeepsWellFormed(t: Tree, s: Files, c: FileChange)
    requires t.WellFormed() && c.path != []
    ensures var r := SingleChange(t, s, c); r.Ok? ==> r.value.WellFormed()
  {
    var p, r := c.path, SingleChange(t, s, c);
    assert Within(p, p) && Below(Parent(p), p) && !Within(Parent(p), p);
    assert forall f, q :: Below(q, f) && Within(q, p) ==> Within(f, p);
    if r.Ok? && !c.Deleted? {
      forall q | Below(q, p) ensures q in r.value.dirs && q !in t.files {
        assert q == p[..|q|] && q <= Parent(p) && !Within(q, p);
      }
    }
  }

  lemma DeleteFirst(t: Tree, s: Tree, rest: seq<FileChange>, written: set<Path>, removed: set<Path>, b: Files)
    requires t.WellFormed() && s.WellFormed() && rest != [] && rest[0].Deleted? && rest[0].path != []
    requires Halfway(t.files, written, removed, s.files, b) && Remaining(rest, written, removed, s.files, b)
    ensures var r := SingleChange(t, s.files, rest[0]);
            r.Ok? && Halfway(r.value.files, written, removed + {rest[0].path}, s.files, b)
  {
    var p, t' := rest[0].path, SingleChange(t, s.files, rest[0]).value;
    assert p in Removals(rest) && p in b;
    assert Get(t.files, p) == Get(t.files, p);
    forall r | r in written ensures r in t.files {
      assert Get(t.files, r) == Get(s.files, r);
    }
    assert p !in t.dirs;
    forall q ensures Get(t'.files, q) == if q == p then None else Get(t.files, q) {}
    assert p !in written;
  }

  lemma Blocked(t: Tree, s: Tree, rest: seq<FileChange>, written: set<Path>, removed: set<Path>, b: Files)
    requires t.WellFormed() && s.WellFormed() && rest != [] && !rest[0].Deleted?
    requires Halfway(t.files, written, removed, s.files, b) && Remaining(rest, written, removed, s.files, b)
    ensures FileAbove(t.files, rest[0].path)
        <==> exists j :: 0 < j < |rest| && rest[j].Deleted? && Below(rest[j].path, rest[0].path)
  {
    var p := rest[0].path;
    assert p in Writes(rest) && p in s.files;
    if FileAbove(t.files, p) {
      var k :| 0 <= k < |p| && p[..k] in t.files;
      var q := p[..k];
      assert Below(q, p);
      FilesDoNotNest(s, q, p);
      assert Get(t.files, q) != None;
      assert q in Removals(rest);
      var c :| c in rest && c.Deleted? && c.path == q;
    }
    if j :| 0 < j < |rest| && rest[j].Deleted? && Below(rest[j].path, p) {
      var q := rest[j].path;
      assert rest[j] in rest && q in Removals(rest);
      forall r | r in written ensures !Below(r, q) {
        if Below(r, q) { FilesDoNotNest(s, r, p); assert false; }
      }
      assert Get(t.files, q) == Get(b, q);
      assert p[..|q|] == q;
    }
  }

  lemma WriteFirst(t: Tree, s: Tree, rest: seq<FileChange>, written: set<Path>, removed: set<Path>, b: Files)
    requires t.WellFormed() && s.WellFormed() && rest != [] && !rest[0].Deleted? && rest[0].path != []
    requires Halfway(t.files, written, removed, s.files, b) && Remaining(rest, written, removed, s.files, b)
    requires !FileAbove(t.files, rest[0].path)
    ensures var r := SingleChange(t, s.files, rest[0]);
            r.Ok? && Halfway(r.value.files, written + {rest[0].path}, removed, s.files, b)
  {
    var p := rest[0].path;
    assert p in Writes(rest) && p in s.files;
    var t' := SingleChange(t, s.files, rest[0]).value;
    forall q ensures Get(t'.files, q) == if q in written + {p} then Get(s.files, q)
                       else if q in removed || (exists r :: r in written + {p} && Below(r, q)) then None
                       else Get(b, q) {
      assert Get(t.files, q) == Get(t.files, q);
      if q != p && Within(q, p) {
        assert Below(p, q) && p in written + {p};
        assert Get(t'.files, q) == None;
        if q in written { FilesDoNotNest(s, p, q); assert false; }
      } else if q != p {
        assert Get(t'.files, q) == Get(t.files, q);
        assert (exists r :: r in written + {p} && Below(r, q)) <==> exists r :: r in written && Below(r, q);
      }
    }
  }

  lemma RemainingNext(rest: seq<FileChange>, written: set<Path>, removed: set<Path>, s: Files, b: Files)
    requires rest != [] && Remaining(rest, written, removed, s, b)
    ensures var c := rest[0];
            if c.Deleted? then Remaining(rest[1..], written, removed + {c.path}, s, b)
            else Remaining(rest[1..], written + {c.path}, removed, s, b)
    ensures Writes(rest) == Writes(rest[1..]) + (if rest[0].Deleted? then {} else {rest[0].path})
  {}

  lemma HalfwayDone(files: Files, s: Tree, written: set<Path>, removed: set<Path>, b: Files)
    requires s.WellFormed() && Halfway(files, written, removed, s.files, b)
    requires Remaining([], written, removed, s.files, b)
    ensures files == Combine(written, s.files, b)
  {
    assert Writes([]) == {} && Removals([]) == {};
    var m := Combine(written, s.files, b);
    forall p ensures Get(files, p) == Get(m, p) {
      if p in s.files {
        forall r | r in written ensures !Below(r, p) {
          if Below(r, p) { FilesDoNotNest(s, r, p); assert false; }
        }
      }
    }
    SameByGet(files, m);
  }

  ghost predicate FoldEnds(r: Result<Tree, IoError>, ordered: bool, files: Files) {
    if ordered then r.Ok? && r.value.files == files else r == Err(Clash)
  }

  /** Half of a change list is done: `t` is the tree, `rest` the other half. */
  ghost predicate Underway(t: Tree, s: Tree, rest: seq<FileChange>, written: set<Path>, removed: set<Path>, b: Files) {
    && t.WellFormed() && s.WellFormed() && (forall c :: c in rest ==> c.path != [])
    && Halfway(t.files, written, removed, s.files, b) && Remaining(rest, written, removed, s.files, b)
  }

  lemma DeleteNext(t: Tree, s: Tree, rest: seq<FileChange>, written: set<Path>, removed: set<Path>, b: Files)
    requires Underway(t, s, rest, written, removed, b) && rest != [] && rest[0].Deleted?
    ensures rest[0].path != []
    ensures var r := SingleChange(t, s.files, rest[0]);
            r.Ok? && Underway(r.value, s, rest[1..], written, removed + {rest[0].path}, b)
    ensures Writes(rest) == Writes(rest[1..])
  {
    assert rest[0] in rest;
    DeleteFirst(t, s, rest, written, removed, b);
    RemainingNext(rest, written, removed, s.files, b);
    SingleChangeKeepsWellFormed(t, s.files, rest[0]);
  }

  lemma WriteNext(t: Tree, s: Tree, rest: seq<FileChange>, written: set<Path>, removed: set<Path>, b: Files)
    requires Underway(t, s, rest, written, removed, b) && rest != [] && !rest[0].Deleted?
    requires !FileAbove(t.files, rest[0].path)
    ensures rest[0].path != []
    ensures var r := SingleChange(t, s.files, rest[0]);
            r.Ok? && Underway(r.value, s, rest[1..], written + {rest[0].path}, removed, b)
    ensures written + {rest[0].path} + Writes(rest[1..]) == written + Writes(rest)
  {
    assert rest[0] in rest;
    WriteFirst(t, s, rest, written, removed, b);
    RemainingNext(rest, written, removed, s.files, b);
    SingleChangeKeepsWellFormed(t, s.files, rest[0]);
  }

  lemma {:induction false} FoldFrom(t: Tree, s: Tree, rest: seq<FileChange>, written: set<Path>, removed: set<Path>,
                                    b: Files)
    requires Underway(t, s, rest, written, removed, b)
    ensures FoldEnds(FoldSingle(t, s.files, rest), ParentsFreedFirst(rest), Combine(written + Writes(rest), s.files, b))
    decreases |rest|
  {
    if rest == [] {
      HalfwayDone(t.files, s, written, removed, b);
      assert written + Writes([]) == written;
    } else {
      var c := rest[0];
      FreedFirstNext(rest);
      if c.Deleted? {
        DeleteNext(t, s, rest, written, removed, b);
        FoldFrom(SingleChange(t, s.files, c).value, s, rest[1..], written, removed + {c.path}, b);
      } else {
        Blocked(t, s, rest, written, removed, b);
        if !FileAbove(t.files, c.path) {
          WriteNext(t, s, rest, written, removed, b);
          FoldFrom(SingleChange(t, s.files, c).value, s, rest[1..], written + {c.path}, removed, b);
        }
      }
    }
  }

  lemma FreedFirstNext(rest: seq<FileChange>)
    requires rest != []
    ensures ParentsFreedFirst(rest) <==>
              && ParentsFreedFirst(rest[1..])
              && (!rest[0].Deleted? ==>
                    !exists j :: 0 < j < |rest| && rest[j].Deleted? && Below(rest[j].path, rest[0].path))
  {}

  /** One change at a time gives the staged apply's files exactly when no write comes
      before the deletion of a file in its way; otherwise it stops at that clash. The
      staged apply succeeds for every order. */
  lemma FoldMatchesStaged(changes: seq<FileChange>, s: Tree, b: Tree)
    requires s.WellFormed() && b.WellFormed() && Consistent(changes, s.files, b.files)
    ensures forall c :: c in changes ==> c.path != []
    ensures FoldEnds(FoldSingle(b, s.files, changes), ParentsFreedFirst(changes), Merged(changes, s.files, b.files))
  {
    forall c | c in changes ensures c.path != [] {
      assert c.path in Writes(changes) || c.path in Removals(changes);
    }
    forall p ensures Get(b.files, p) == if p in {} then Get(s.files, p)
                       else if p in {} || (exists r :: r in {} && Below(r, p)) then None
                       else Get(b.files, p) {}
    FoldFrom(b, s, changes, {}, {}, b.files);
    assert {} + Writes(changes) == Writes(changes);
  }

  /** Deletions first is such an order, whatever the order inside each group. */
  lemma DeletionsFirst(changes: seq<FileChange>, n: nat)
    requires n <= |changes|
    requires forall i :: 0 <= i < |changes| ==> (changes[i].Deleted? <==> i < n)
    ensures ParentsFreedFirst(changes)
  {}

  /** A file that became a directory, written before the old file is deleted: the fold
      stops although the staged apply of the same list succeeds. */
  lemma FileBecomesDirectory(a: Name, x: Name, old_: Content, new_: Content)
    ensures var s := Tree(map[[a, x] := new_], {[], [a]});
            var b := Tree(map[[a] := old_], {[]});
            var changes := [Added([a, x]), Deleted([a])];
            s.WellFormed() && b.WellFormed() && Consistent(changes, s.files, b.files)
            && FoldSingle(b, s.files, changes) == Err(Clash)
  {
    var s := Tree(map[[a, x] := new_], {[], [a]});
    var b := Tree(map[[a] := old_], {[]});
    var changes := [Added([a, x]), Deleted([a])];
    forall q | Below(q, [a, x]) ensures q == [] || q == [a] {
      assert q == [a, x][..|q|];
    }
    assert Writes(changes) == {[a, x]};
    assert changes[1] in changes && Removals(changes) == {[a]};
    assert Below([a], [a, x]);
    FoldMatchesStaged(changes, s, b);
  }
}
