/** Applying a change list to the base tree: stage the new content, delete, rename into place. */
module StagedApply {
  import opened Prelude
  import opened FileTree
  import opened SessionDiff

  /** Nothing in `t` lies at or under the staging directory. */
  ghost predicate Fresh(staging: Name, t: Tree) {
    forall p :: p in t.files || p in t.dirs ==> !Within(p, [staging])
  }

  /** Where the session's file `rel` is staged. */
  function Staged(staging: Name, rel: Path): (p: Path)
    ensures Within(p, [staging]) && p[1..] == rel
  {
    [staging] + rel
  }

  lemma WithinStaging(p: Path, staging: Name)
    ensures Within(p, [staging]) ==> p == Staged(staging, p[1..])
  {}

  /** Outside the staging directory `files` is `outer`; inside it holds exactly the
      session's content for the paths in `staged`. */
  ghost predicate Layout(files: Files, outer: Files, staged: set<Path>, s: Files, staging: Name) {
    && (forall p {:trigger Get(files, p)} :: !Within(p, [staging]) ==> Get(files, p) == Get(outer, p))
    && (forall rel {:trigger Staged(staging, rel)} ::
          Get(files, Staged(staging, rel)) == if rel in staged then Get(s, rel) else None)
  }

  /** A staging directory never occupies the staged name of a session file. */
  ghost predicate RoomToStage(dirs: set<Path>, s: Files, staging: Name) {
    forall d :: d in dirs && Within(d, [staging]) ==> d[1..] !in s
  }

  /** Outside the staging directory every path holds its old or its session value. */
  ghost predicate PerPathAtomic(m: Files, b: Files, s: Files, staging: Name) {
    forall p {:trigger Get(m, p)} :: !Within(p, [staging]) ==> Get(m, p) == Get(b, p) || Get(m, p) == Get(s, p)
  }

  ghost predicate AtomicSince(h: seq<Files>, from: nat, b: Files, s: Files, staging: Name) {
    from <= |h| && forall i :: from <= i < |h| ==> PerPathAtomic(h[i], b, s, staging)
  }

  ghost predicate UntouchedSince(h: seq<Files>, from: nat, b: Files, staging: Name) {
    from <= |h| && forall i :: from <= i < |h| ==> AgreeOutside(h[i], b, [staging])
  }

  /** The base's directories after the paths in `written` were moved into place: one
      that stood where a file belongs is gone with all below it, and every ancestor of
      a written file exists. */
  ghost predicate DirExpected(d: Path, old_: set<Path>, written: set<Path>) {
    || (d in old_ && forall r :: r in written ==> !Within(d, r))
    || (exists r :: r in written && Below(d, r))
  }

  ghost predicate DirsFollow(dirs: set<Path>, old_: set<Path>, written: set<Path>, staging: Name) {
    forall d :: !Within(d, [staging]) ==> (d in dirs <==> DirExpected(d, old_, written))
  }

  lemma WritesSnoc(changes: seq<FileChange>, i: nat)
    requires i < |changes|
    ensures changes[..i + 1] == changes[..i] + [changes[i]]
    ensures Writes(changes[..i + 1]) == Writes(changes[..i]) + (if changes[i].Deleted? then {} else {changes[i].path})
    ensures Removals(changes[..i + 1])
         == Removals(changes[..i]) + (if changes[i].Deleted? then {changes[i].path} else {})
    ensures if changes[i].Deleted? then changes[i].path in Removals(changes) else changes[i].path in Writes(changes)
  {}

  /** Distinct paths: what was handled before index `i` does not contain entry `i`. */
  lemma NotYetHandled(changes: seq<FileChange>, s: Files, b: Files, i: nat)
    requires Consistent(changes, s, b) && i < |changes|
    ensures changes[i].path !in Writes(changes[..i]) && changes[i].path !in Removals(changes[..i])
  {}

  /** No file of a well-formed tree lies below another one. */
  lemma FilesDoNotNest(t: Tree, q: Path, p: Path)
    requires t.WellFormed() && p in t.files && Below(q, p)
    ensures q !in t.files
  {}

  // ---- Phase 1 ------------------------------------------------------------

  lemma StageStep(t: Tree, s: Tree, outer: Files, staged: set<Path>, staging: Name, rel: Path)
    requires s.WellFormed() && t.WellFormed() && staged <= s.files.Keys && rel in s.files
    requires Layout(t.files, outer, staged, s.files, staging) && RoomToStage(t.dirs, s.files, staging)
    requires [staging] in t.dirs
    ensures forall q :: Below(q, Staged(staging, rel)) ==> q !in t.files
    ensures Staged(staging, rel) !in t.dirs
    ensures RoomToStage(t.dirs + Prefixes(Parent(Staged(staging, rel))), s.files, staging)
    ensures Layout(t.files[Staged(staging, rel) := s.files[rel]], outer, staged + {rel}, s.files, staging)
  {
    var dst := Staged(staging, rel);
    forall q | Below(q, dst) ensures q !in t.files && (Within(q, [staging]) ==> q[1..] !in s.files) {
      if q == [] {
      } else {
        assert Within(q, [staging]) && Below(q[1..], rel);
        FilesDoNotNest(s, q[1..], rel);
        WithinStaging(q, staging);
        assert Get(t.files, q) == None;
      }
    }
    assert forall q :: q in Prefixes(Parent(dst)) ==> Below(q, dst);
    forall p ensures !Within(p, [staging]) ==> Get(t.files[dst := s.files[rel]], p) == Get(outer, p) {
      assert Get(t.files, p) == Get(t.files, p);
    }
    forall r ensures Get(t.files[dst := s.files[rel]], Staged(staging, r))
                     == if r in staged + {rel} then Get(s.files, r) else None {
      assert Staged(staging, r)[1..] == r;
    }
  }

  lemma OnlyStagedChanged(m: Files, files: Files, outer: Files, dst: Path, staging: Name)
    requires m - {dst} == files - {dst} && Within(dst, [staging]) && AgreeOutside(files, outer, [staging])
    ensures AgreeOutside(m, outer, [staging])
  {
    forall p | !Within(p, [staging]) ensures Get(m, p) == Get(outer, p) {
      assert p != dst;
      assert Get(m - {dst}, p) == Get(m, p) && Get(files - {dst}, p) == Get(files, p);
    }
  }

  /** Stages one file. */
  method StageOne(session: FileSystem, base: FileSystem, rel: Path, staging: Name,
                  ghost outer: Files, ghost staged: set<Path>)
    returns (r: Outcome<IoError>)
    requires session != base && session.Valid() && base.Valid() && [staging] in base.tree.dirs
    requires staged <= session.tree.files.Keys
    requires Layout(base.tree.files, outer, staged, session.tree.files, staging)
    requires RoomToStage(base.tree.dirs, session.tree.files, staging)
    modifies base
    ensures base.Valid() && [staging] in base.tree.dirs
    ensures old(base.history) <= base.history
    ensures UntouchedSince(base.history, |old(base.history)|, outer, staging)
    ensures AgreeOutside(base.tree.files, outer, [staging])
    ensures forall d :: !Within(d, [staging]) ==> (d in base.tree.dirs <==> d in old(base.tree.dirs))
    ensures r.Pass? ==> rel in session.tree.files
                        && Layout(base.tree.files, outer, staged + {rel}, session.tree.files, staging)
                        && RoomToStage(base.tree.dirs, session.tree.files, staging)
    ensures r.Fail? && rel in session.tree.files ==> r.error == Fault && base.mayFault
  {
    var dst := Staged(staging, rel);
    ghost var t := base.tree;
    assert Within(dst, [staging]) && Below(Parent(dst), dst);
    assert forall q :: q <= Parent(dst) ==> q == [] || Within(q, [staging]);
    if rel in session.tree.files {
      StageStep(t, session.tree, outer, staged, staging, rel);
    }
    r := base.CreateDirAll(Parent(dst));
    if r.Fail? {
      return;
    }
    r := base.Copy(session, rel, dst);
    forall m: Files | m - {dst} == t.files - {dst} ensures AgreeOutside(m, outer, [staging]) {
      OnlyStagedChanged(m, t.files, outer, dst, staging);
    }
    assert base.tree.files - {dst} == t.files - {dst};
  }

  /** For any change list: nothing outside the staging directory changes at any moment. */
  method StageContent(session: FileSystem, base: FileSystem, changes: seq<FileChange>, staging: Name)
    returns (r: Outcome<IoError>)
    requires session != base && session.Valid() && base.Valid()
    requires Fresh(staging, Tree(base.tree.files, base.tree.dirs - {[staging]})) && [staging] in base.tree.dirs
    modifies base
    ensures base.Valid() && [staging] in base.tree.dirs
    ensures old(base.history) <= base.history
    ensures UntouchedSince(base.history, |old(base.history)|, old(base.tree.files), staging)
    ensures AgreeOutside(base.tree.files, old(base.tree.files), [staging])
    ensures forall d :: !Within(d, [staging]) ==> (d in base.tree.dirs <==> d in old(base.tree.dirs))
    ensures r.Pass? ==> Writes(changes) <= session.tree.files.Keys
    ensures r.Pass? ==> Layout(base.tree.files, old(base.tree.files), Writes(changes), session.tree.files, staging)
    ensures r.Fail? && Writes(changes) <= session.tree.files.Keys ==> r.error == Fault && base.mayFault
  {
    ghost var outer := base.tree.files;
    var i := 0;
    assert Within([staging], [staging]) && [staging][1..] == [];
    while i < |changes|
      invariant 0 <= i <= |changes| && base.Valid() && [staging] in base.tree.dirs
      invariant old(base.history) <= base.history
      invariant UntouchedSince(base.history, |old(base.history)|, outer, staging)
      invariant forall d :: !Within(d, [staging]) ==> (d in base.tree.dirs <==> d in old(base.tree.dirs))
      invariant Writes(changes[..i]) <= session.tree.files.Keys
      invariant Layout(base.tree.files, outer, Writes(changes[..i]), session.tree.files, staging)
      invariant RoomToStage(base.tree.dirs, session.tree.files, staging)
    {
      WritesSnoc(changes, i);
      if !changes[i].Deleted? {
        r := StageOne(session, base, changes[i].path, staging, outer, Writes(changes[..i]));
        if r.Fail? {
          return;
        }
      }
      i := i + 1;
    }
    assert changes[..i] == changes;
    return Pass;
  }

  // ---- Phase 2a -----------------------------------------------------------

  lemma DeleteStep(files: Files, outer: Files, staged: set<Path>, s: Files, staging: Name, rel: Path)
    requires Layout(files, outer, staged, s, staging) && !Within(rel, [staging])
    ensures Layout(files - {rel}, outer - {rel}, staged, s, staging)
  {
    forall p ensures Get(files - {rel}, p) == (if p == rel then None else Get(files, p))
                  && Get(outer - {rel}, p) == (if p == rel then None else Get(outer, p)) {}
  }

  /** If `outer` mixes old and session values, so does every file map laid out over it. */
  lemma LayoutIsAtomic(files: Files, outer: Files, staged: set<Path>, s: Files, staging: Name, b: Files)
    requires Layout(files, outer, staged, s, staging)
    requires forall p :: !Within(p, [staging]) ==> Get(outer, p) == Get(b, p) || Get(outer, p) == Get(s, p)
    ensures PerPathAtomic(files, b, s, staging)
  {}

  lemma DeleteOne(files: Files, s: Files, b: Files, staged: set<Path>, gone: set<Path>, staging: Name, rel: Path)
    requires rel in b && rel !in s && rel !in gone && gone !! s.Keys && !Within(rel, [staging])
    requires Layout(files, b - gone, staged, s, staging)
    ensures rel in files
    ensures Layout(files - {rel}, b - (gone + {rel}), staged, s, staging)
    ensures PerPathAtomic(files, b, s, staging) && PerPathAtomic(files - {rel}, b, s, staging)
  {
    assert Get(files, rel) == Get(b - gone, rel);
    DeleteStep(files, b - gone, staged, s, staging, rel);
    assert (b - gone) - {rel} == b - (gone + {rel});
    GoneIsMixed(s, b, gone);
    GoneIsMixed(s, b, gone + {rel});
    LayoutIsAtomic(files, b - gone, staged, s, staging, b);
    LayoutIsAtomic(files - {rel}, b - (gone + {rel}), staged, s, staging, b);
  }

  lemma GoneIsMixed(s: Files, b: Files, gone: set<Path>)
    requires gone !! s.Keys
    ensures forall p :: Get(b - gone, p) == Get(b, p) || Get(b - gone, p) == Get(s, p)
  {}

  method DeleteStale(base: FileSystem, changes: seq<FileChange>, staging: Name, ghost s: Files, ghost b: Files)
    returns (r: Outcome<IoError>)
    requires base.Valid() && forall p :: p in b ==> !Within(p, [staging])
    requires Layout(base.tree.files, b, Writes(changes), s, staging)
    modifies base
    ensures base.Valid() && base.tree.dirs == old(base.tree.dirs)
    ensures old(base.history) <= base.history
    ensures Consistent(changes, s, b) ==>
              && AtomicSince(base.history, |old(base.history)|, b, s, staging)
              && (r.Pass? ==> Layout(base.tree.files, b - Removals(changes), Writes(changes), s, staging))
              && (r.Fail? ==> r.error == Fault && base.mayFault && PerPathAtomic(base.tree.files, b, s, staging))
  {
    ghost var staged := Writes(changes);
    ghost var ok := Consistent(changes, s, b);
    var i := 0;
    ghost var gone: set<Path> := {};
    assert b - gone == b;
    while i < |changes|
      invariant 0 <= i <= |changes| && base.Valid() && base.tree.dirs == old(base.tree.dirs)
      invariant old(base.history) <= base.history
      invariant gone == Removals(changes[..i])
      invariant ok ==> gone !! s.Keys && Layout(base.tree.files, b - gone, staged, s, staging)
      invariant ok ==> AtomicSince(base.history, |old(base.history)|, b, s, staging)
    {
      WritesSnoc(changes, i);
      if changes[i].Deleted? {
        var rel := changes[i].path;
        if ok {
          NotYetHandled(changes, s, b, i);
          DeleteOne(base.tree.files, s, b, staged, gone, staging, rel);
        }
        if base.Exists(rel) {
          r := base.RemoveFile(rel);
          if r.Fail? {
            return;
          }
        }
        gone := gone + {rel};
      }
      i := i + 1;
    }
    assert changes[..i] == changes;
    return Pass;
  }

  // ---- Phase 2b -----------------------------------------------------------

  lemma MoveClear(t: Tree, s: Tree, outer: Files, staged: set<Path>, staging: Name, rel: Path)
    requires t.WellFormed() && s.WellFormed() && Fresh(staging, s) && outer.Keys <= s.files.Keys
    requires Layout(t.files, outer, staged, s.files, staging) && rel in s.files
    ensures rel != [] && !Within(rel, [staging])
    ensures forall q :: Below(q, rel) ==> q !in t.files
    ensures forall q :: Within(q, rel) && q != rel ==> q !in t.files
  {
    forall q | Below(q, rel) ensures q !in t.files {
      if q != [] {
        assert q[0] == rel[0] && (Within(q, [staging]) <==> Within(rel, [staging]));
        FilesDoNotNest(s, q, rel);
        assert Get(t.files, q) == Get(outer, q);
      }
    }
    forall q | Within(q, rel) && q != rel ensures q !in t.files {
      assert q[0] == rel[0] && (Within(q, [staging]) <==> Within(rel, [staging]));
      if q in s.files {
        FilesDoNotNest(s, rel, q);
      }
      assert Get(t.files, q) == Get(outer, q);
    }
  }

  lemma MoveStep(files: Files, s: Files, outer: Files, staged: set<Path>, staging: Name, rel: Path)
    requires rel in s && rel in staged && !Within(rel, [staging])
    requires Layout(files, outer, staged, s, staging)
    ensures Staged(staging, rel) in files && files[Staged(staging, rel)] == s[rel]
    ensures Layout((files - {Staged(staging, rel)})[rel := s[rel]], outer[rel := s[rel]], staged - {rel}, s, staging)
  {
    var src := Staged(staging, rel);
    assert Get(files, src) == Get(s, rel);
    var m, outer' := (files - {src})[rel := s[rel]], outer[rel := s[rel]];
    forall p ensures !Within(p, [staging]) ==> Get(m, p) == Get(outer', p) {
      assert Get(files, p) == Get(files, p);
    }
    forall r ensures Get(m, Staged(staging, r)) == if r in staged - {rel} then Get(s, r) else None {
      assert Staged(staging, r)[1..] == r;
    }
  }

  lemma DirsStep(dirs0: set<Path>, dirs1: set<Path>, s: Tree, d0: set<Path>, written: set<Path>, staging: Name,
                 rel: Path)
    requires s.WellFormed() && written <= s.files.Keys && rel in s.files && rel != [] && !Within(rel, [staging])
    requires DirsFollow(dirs0, d0, written, staging)
    requires forall d :: d in dirs1 <==> (d in dirs0 || Below(d, rel)) && !Within(d, rel)
    ensures DirsFollow(dirs1, d0, written + {rel}, staging)
  {}

  lemma SameWithinEmpty(m: Files, t: Tree, rel: Path)
    requires t.WellFormed() && rel in t.dirs && AgreeOutside(m, t.files, rel) && m.Keys <= t.files.Keys
    requires forall q :: Within(q, rel) && q != rel ==> q !in t.files
    ensures m == t.files
  {}

  ghost predicate NothingBeneath(files: Files, rel: Path) {
    forall q :: Within(q, rel) && q != rel ==> q !in files
  }

  /** Makes room for a file at `rel`. Where no file lies beneath `rel`, emptying a
      directory that stands there removes no file. */
  method ClearDestination(base: FileSystem, rel: Path) returns (r: Outcome<IoError>)
    requires base.Valid() && rel != []
    modifies base
    ensures base.Valid() && old(base.history) <= base.history
    ensures old(NothingBeneath(base.tree.files, rel)) ==>
              && base.tree.files == old(base.tree.files)
              && forall i :: |old(base.history)| <= i < |base.history| ==> base.history[i] == base.tree.files
    ensures r.Pass? ==> forall d :: d in base.tree.dirs <==>
                                    (d in old(base.tree.dirs) || Below(d, rel)) && !Within(d, rel)
    ensures r.Fail? ==> || (r.error == Fault && base.mayFault)
                        || (r.error == Clash && exists q :: Below(q, rel) && q in old(base.tree.files))
  {
    ghost var t0 := base.tree;
    assert Below(Parent(rel), rel);
    assert forall q :: q <= Parent(rel) <==> Below(q, rel);
    r := base.CreateDirAll(Parent(rel));
    if r.Fail? {
      return;
    }
    ghost var t1 := base.tree;
    assert forall d :: d in t1.dirs <==> d in t0.dirs || Below(d, rel);
    assert forall d :: Within(d, rel) <==> d == rel || Below(rel, d);
    if rel in base.tree.dirs {
      r := base.RemoveDirAll(rel);
      if NothingBeneath(t0.files, rel) {
        forall m: Files | AgreeOutside(m, t1.files, rel) && m.Keys <= t1.files.Keys ensures m == t1.files {
          SameWithinEmpty(m, t1, rel);
        }
        assert base.tree.files == t1.files;
      }
    }
  }

  /** Moves one staged file to its final place: the file map takes no value on the way
      but its old and its new one. */
  method MoveOne(base: FileSystem, rel: Path, staging: Name, ghost s: Tree, ghost outer: Files, ghost staged: set<Path>)
    returns (r: Outcome<IoError>)
    requires base.Valid() && s.WellFormed() && Fresh(staging, s) && rel in s.files
    modifies base
    ensures base.Valid() && old(base.history) <= base.history
    ensures outer.Keys <= s.files.Keys && rel in staged
             && old(Layout(base.tree.files, outer, staged, s.files, staging)) ==>
              && (forall i :: |old(base.history)| <= i < |base.history| ==>
                    base.history[i] == old(base.tree.files) || base.history[i] == base.tree.files)
              && (r.Fail? ==> base.tree.files == old(base.tree.files) && r.error == Fault && base.mayFault)
              && (r.Pass? ==> Layout(base.tree.files, outer[rel := s.files[rel]], staged - {rel}, s.files, staging))
              && (r.Pass? ==> forall d :: d in base.tree.dirs <==>
                                (d in old(base.tree.dirs) || Below(d, rel)) && !Within(d, rel))
  {
    ghost var t0 := base.tree;
    ghost var ok := outer.Keys <= s.files.Keys && rel in staged && Layout(t0.files, outer, staged, s.files, staging);
    if ok {
      MoveClear(t0, s, outer, staged, staging, rel);
      MoveStep(t0.files, s.files, outer, staged, staging, rel);
    }
    r := ClearDestination(base, rel);
    if r.Fail? {
      return;
    }
    assert Below(Parent(rel), rel) && !Within(Parent(rel), rel) && Within(rel, rel);
    r := base.Rename(Staged(staging, rel), rel);
  }

  /** `gone` with the session's content at the paths in `written`. */
  ghost function Overlay(gone: Files, written: set<Path>, s: Files): Files {
    gone + map p | p in written && p in s :: s[p]
  }

  /** Progress of phase 2b once the paths in `written`, of those in `all`, were moved. */
  ghost predicate MovedSoFar(files: Files, written: set<Path>, all: set<Path>, gone: Files, s: Files, b: Files,
                             staging: Name) {
    && written <= all
    && Layout(files, Overlay(gone, written, s), all - written, s, staging)
    && PerPathAtomic(files, b, s, staging)
  }

  lemma MovedOneMore(t0: Tree, t1: Tree, rel: Path, written: set<Path>, all: set<Path>, gone: Files,
                     s: Tree, b: Files, removed: set<Path>, staging: Name)
    requires rel in s.files && rel in all && rel !in written
    requires gone == b - removed && removed !! s.files.Keys
    requires MovedSoFar(t0.files, written, all, gone, s.files, b, staging)
    requires Layout(t1.files, Overlay(gone, written, s.files)[rel := s.files[rel]], (all - written) - {rel}, s.files,
             staging)
    ensures MovedSoFar(t1.files, written + {rel}, all, gone, s.files, b, staging)
  {}

  /** What phase 2b keeps after each move, for a consistent list. */
  ghost predicate Moving(t: Tree, written: set<Path>, changes: seq<FileChange>, s: Tree, b: Files, d0: set<Path>,
                         staging: Name) {
    && MovedSoFar(t.files, written, Writes(changes), b - Removals(changes), s.files, b, staging)
    && DirsFollow(t.dirs, d0, written, staging)
  }

  method MoveNext(base: FileSystem, rel: Path, staging: Name, ghost changes: seq<FileChange>, ghost written: set<Path>,
                  ghost s: Tree, ghost b: Files, ghost d0: set<Path>)
    returns (r: Outcome<IoError>)
    requires base.Valid() && s.WellFormed() && Fresh(staging, s) && Writes(changes) <= s.files.Keys
    requires rel in Writes(changes)
    modifies base
    ensures base.Valid() && old(base.history) <= base.history
    ensures Consistent(changes, s.files, b) && rel !in written
            && old(Moving(base.tree, written, changes, s, b, d0, staging)) ==>
              && AtomicSince(base.history, |old(base.history)|, b, s.files, staging)
              && PerPathAtomic(base.tree.files, b, s.files, staging)
              && (r.Fail? ==> r.error == Fault && base.mayFault)
              && (r.Pass? ==> Moving(base.tree, written + {rel}, changes, s, b, d0, staging))
              && (r.Pass? && [staging] in old(base.tree.dirs) ==> [staging] in base.tree.dirs)
  {
    ghost var removed, all := Removals(changes), Writes(changes);
    ghost var gone := b - removed;
    ghost var t0 := base.tree;
    ghost var ok := Consistent(changes, s.files, b) && rel !in written
        && Moving(t0, written, changes, s, b, d0, staging);
    ghost var outer := Overlay(gone, written, s.files);
    assert rel != [] && !Within(rel, [staging]) && !Within([staging], rel);
    assert ok ==> outer.Keys <= s.files.Keys && removed !! s.files.Keys;
    r := MoveOne(base, rel, staging, s, outer, all - written);
    if ok && r.Pass? {
      MovedOneMore(t0, base.tree, rel, written, all, gone, s, b, removed, staging);
      DirsStep(t0.dirs, base.tree.dirs, s, d0, written, staging, rel);
    }
  }

  lemma MovingStart(t: Tree, changes: seq<FileChange>, s: Tree, b: Files, staging: Name)
    requires Consistent(changes, s.files, b)
    requires Layout(t.files, b - Removals(changes), Writes(changes), s.files, staging)
    ensures Moving(t, {}, changes, s, b, t.dirs, staging)
  {}

  lemma MovingEnd(t: Tree, changes: seq<FileChange>, s: Tree, b: Files, d0: set<Path>, staging: Name)
    requires Consistent(changes, s.files, b) && Moving(t, Writes(changes), changes, s, b, d0, staging)
    ensures Layout(t.files, Merged(changes, s.files, b), {}, s.files, staging)
  {}

  /** For a consistent list this phase can only fail through the device, and every file
      map it passes through is per-path atomic. */
  method MoveIntoPlace(base: FileSystem, changes: seq<FileChange>, staging: Name, ghost s: Tree, ghost b: Files)
    returns (r: Outcome<IoError>)
    requires base.Valid() && s.WellFormed() && Fresh(staging, s) && Writes(changes) <= s.files.Keys
    requires Consistent(changes, s.files, b) ==>
               Layout(base.tree.files, b - Removals(changes), Writes(changes), s.files, staging)
    modifies base
    ensures base.Valid() && old(base.history) <= base.history
    ensures Consistent(changes, s.files, b) ==>
              && AtomicSince(base.history, |old(base.history)|, b, s.files, staging)
              && PerPathAtomic(base.tree.files, b, s.files, staging)
              && (r.Fail? ==> r.error == Fault && base.mayFault)
              && (r.Pass? ==> Layout(base.tree.files, Merged(changes, s.files, b), {}, s.files, staging))
              && (r.Pass? ==> DirsFollow(base.tree.dirs, old(base.tree.dirs), Writes(changes), staging))
              && (r.Pass? && [staging] in old(base.tree.dirs) ==> [staging] in base.tree.dirs)
  {
    ghost var d0, written: set<Path> := base.tree.dirs, {};
    ghost var ok := Consistent(changes, s.files, b);
    if ok {
      MovingStart(base.tree, changes, s, b, staging);
    }
    var i := 0;
    while i < |changes|
      invariant 0 <= i <= |changes| && base.Valid() && old(base.history) <= base.history
      invariant ok ==> written == Writes(changes[..i]) && Moving(base.tree, written, changes, s, b, d0, staging)
      invariant ok && [staging] in d0 ==> [staging] in base.tree.dirs
      invariant ok ==> AtomicSince(base.history, |old(base.history)|, b, s.files, staging)
    {
      WritesSnoc(changes, i);
      if !changes[i].Deleted? {
        var rel := changes[i].path;
        if ok {
          NotYetHandled(changes, s.files, b, i);
        }
        r := MoveNext(base, rel, staging, changes, written, s, b, d0);
        if r.Fail? {
          return;
        }
        written := written + {rel};
      }
      i := i + 1;
    }
    assert changes[..i] == changes;
    if ok {
      MovingEnd(base.tree, changes, s, b, d0, staging);
    }
    return Pass;
  }

  // ---- The whole apply ----------------------------------------------------

  /** The base tree after a complete apply on a device that does not fail. */
  ghost predicate Applied(t: Tree, changes: seq<FileChange>, s: Tree, b: Tree) {
    && t.files == Merged(changes, s.files, b.files)
    && forall d :: d in t.dirs <==> DirExpected(d, b.dirs, Writes(changes))
  }

  lemma AppliedNothing(s: Tree, b: Tree)
    requires Consistent([], s.files, b.files)
    ensures Applied(b, [], s, b)
  {}

  /** Once staging is empty and removed, the merged files are all that is left. */
  lemma AppliedAll(t: Tree, t': Tree, changes: seq<FileChange>, s: Tree, b: Tree, staging: Name)
    requires Fresh(staging, s) && Fresh(staging, b) && Consistent(changes, s.files, b.files)
    requires Layout(t.files, Merged(changes, s.files, b.files), {}, s.files, staging)
    requires DirsFollow(t.dirs, b.dirs, Writes(changes), staging)
    requires t' == WithoutTree(t, [staging])
    ensures Applied(t', changes, s, b)
  {
    var m := Merged(changes, s.files, b.files);
    forall p ensures Get(t'.files, p) == Get(m, p) {
      assert p in s.files ==> !Within(p, [staging]);
      assert !Within(p, [staging]) ==> Get(t.files, p) == Get(m, p);
    }
    SameByGet(t'.files, m);
    forall d | Within(d, [staging]) ensures !DirExpected(d, b.dirs, Writes(changes)) {
      forall r | r in Writes(changes) ensures !Below(d, r) {
        assert Below(d, r) ==> Within(r, [staging]);
      }
    }
  }

  lemma SameByGet(m: Files, n: Files)
    requires forall p :: Get(m, p) == Get(n, p)
    ensures m == n
  {
    assert forall p :: p in m ==> Get(n, p) == Some(m[p]);
    assert forall p :: p in n ==> Get(m, p) == Some(n[p]);
  }

  lemma CleanupIsAtomic(m: Files, t: Files, b: Files, s: Files, staging: Name)
    requires AgreeOutside(m, t, [staging]) && PerPathAtomic(t, b, s, staging)
    ensures PerPathAtomic(m, b, s, staging)
  {}

  /** The staging directory is removed at the end; an error doing so is ignored. */
  method CleanUp(base: FileSystem, staging: Name, ghost s: Files, ghost b: Files)
    requires base.Valid()
    modifies base
    ensures base.Valid() && old(base.history) <= base.history
    ensures old(PerPathAtomic(base.tree.files, b, s, staging)) ==>
              && AtomicSince(base.history, |old(base.history)|, b, s, staging)
              && PerPathAtomic(base.tree.files, b, s, staging)
    ensures AgreeOutside(base.tree.files, old(base.tree.files), [staging])
    ensures !base.mayFault ==> [staging] !in base.tree.dirs
    ensures [staging] in old(base.tree.dirs) && !base.mayFault ==>
              base.tree == WithoutTree(old(base.tree), [staging])
  {
    ghost var t := base.tree;
    if base.Exists([staging]) {
      var ignored := base.RemoveDirAll([staging]);
      if PerPathAtomic(t.files, b, s, staging) {
        forall m: Files | AgreeOutside(m, t.files, [staging]) ensures PerPathAtomic(m, b, s, staging) {
          CleanupIsAtomic(m, t.files, b, s, staging);
        }
      }
    }
  }

  lemma UntouchedIsAtomic(h: seq<Files>, from: nat, b: Files, s: Files, staging: Name)
    requires UntouchedSince(h, from, b, staging)
    ensures AtomicSince(h, from, b, s, staging)
  {}

  /** Phase 2: deletions, then moves, stopping at the first error. */
  method FinalizeStaged(base: FileSystem, changes: seq<FileChange>, staging: Name, ghost s: Tree, ghost b: Tree)
    returns (r: Outcome<IoError>)
    requires base.Valid() && s.WellFormed() && Fresh(staging, s) && Fresh(staging, b)
    requires Writes(changes) <= s.files.Keys
    requires Layout(base.tree.files, b.files, Writes(changes), s.files, staging)
    requires [staging] in base.tree.dirs
    requires forall d :: !Within(d, [staging]) ==> (d in base.tree.dirs <==> d in b.dirs)
    modifies base
    ensures base.Valid() && old(base.history) <= base.history
    ensures Consistent(changes, s.files, b.files) ==>
              && AtomicSince(base.history, |old(base.history)|, b.files, s.files, staging)
              && PerPathAtomic(base.tree.files, b.files, s.files, staging)
              && (r.Fail? ==> r.error == Fault && base.mayFault)
              && (r.Pass? ==> Layout(base.tree.files, Merged(changes, s.files, b.files), {}, s.files, staging)
                              && DirsFollow(base.tree.dirs, b.dirs, Writes(changes), staging)
                              && [staging] in base.tree.dirs)
  {
    r := DeleteStale(base, changes, staging, s.files, b.files);
    if r.Fail? {
      return;
    }
    r := MoveIntoPlace(base, changes, staging, s, b.files);
    if Consistent(changes, s.files, b.files) && r.Pass? {
      forall d | !Within(d, [staging])
        ensures DirExpected(d, old(base.tree.dirs), Writes(changes)) <==> DirExpected(d, b.dirs, Writes(changes)) {}
    }
  }

  /** Wherever the device fails, every file map recorded from index `from` on holds, at
      each path outside staging, the old or the session value; only the device can fail,
      and a complete apply leaves exactly the merged files. */
  ghost predicate ApplyOutcome(r: Outcome<IoError>, t: Tree, mayFault: bool, h: seq<Files>, from: nat,
                               changes: seq<FileChange>, s: Tree, b: Tree, staging: Name) {
    && AtomicSince(h, from, b.files, s.files, staging)
    && PerPathAtomic(t.files, b.files, s.files, staging)
    && (r.Fail? ==> r.error == Fault && mayFault)
    && (r.Pass? ==> AgreeOutside(t.files, Merged(changes, s.files, b.files), [staging]))
    && (!mayFault ==> Applied(t, changes, s, b))
  }

  /** All of `apply_changes` after the staging directory was made. A write that the session
      does not have fails before anything outside staging changes. On a device that does not
      fail, exactly then the staging directory is left behind. */
  method ApplyStaged(session: FileSystem, base: FileSystem, changes: seq<FileChange>, staging: Name, ghost b: Tree)
    returns (r: Outcome<IoError>)
    requires session != base && session.Valid() && base.Valid()
    requires Fresh(staging, session.tree) && Fresh(staging, b)
    requires base.tree == Tree(b.files, b.dirs + {[staging]})
    modifies base
    ensures base.Valid() && old(base.history) <= base.history
    ensures !(Writes(changes) <= session.tree.files.Keys) ==>
              && r.Fail? && [staging] in base.tree.dirs && AgreeOutside(base.tree.files, b.files, [staging])
              && UntouchedSince(base.history, |old(base.history)|, b.files, staging)
    ensures !base.mayFault ==> ([staging] in base.tree.dirs <==> !(Writes(changes) <= session.tree.files.Keys))
    ensures Consistent(changes, session.tree.files, b.files) ==>
              ApplyOutcome(r, base.tree, base.mayFault, base.history, |old(base.history)|,
                           changes, session.tree, b, staging)
  {
    ghost var s := session.tree;
    ghost var ok := Consistent(changes, s.files, b.files);
    assert Within([staging], [staging]);
    r := StageContent(session, base, changes, staging);
    UntouchedIsAtomic(base.history, |old(base.history)|, b.files, s.files, staging);
    if r.Fail? {
      CleanupIsAtomic(base.tree.files, b.files, b.files, s.files, staging);
      return;
    }
    r := FinalizeStaged(base, changes, staging, s, b);
    ghost var t := base.tree;
    CleanUp(base, staging, s.files, b.files);
    if ok && r.Pass? {
      forall p | !Within(p, [staging]) ensures Get(base.tree.files, p) == Get(Merged(changes, s.files, b.files), p) {
        assert Get(base.tree.files, p) == Get(t.files, p);
      }
      if !base.mayFault {
        AppliedAll(t, base.tree, changes, s, b, staging);
      }
    }
  }

  method ApplyChanges(session: FileSystem, base: FileSystem, changes: seq<FileChange>, staging: Name)
    returns (r: Outcome<IoError>)
    requires session != base && session.Valid() && base.Valid()
    requires Fresh(staging, session.tree) && Fresh(staging, base.tree)
    modifies base
    ensures base.Valid() && old(base.history) <= base.history
    ensures !(Writes(changes) <= session.tree.files.Keys) ==>
              && r.Fail? && AgreeOutside(base.tree.files, old(base.tree.files), [staging])
              && UntouchedSince(base.history, |old(base.history)|, old(base.tree.files), staging)
    ensures Consistent(changes, session.tree.files, old(base.tree.files)) ==>
              ApplyOutcome(r, base.tree, base.mayFault, base.history, |old(base.history)|,
                           changes, session.tree, old(base.tree), staging)
  {
    ghost var b := base.tree;
    if changes == [] {
      if Consistent(changes, session.tree.files, b.files) {
        AppliedNothing(session.tree, b);
      }
      return Pass;
    }
    assert Within([staging], [staging]);
    assert forall q :: q in Prefixes([staging]) <==> q == [] || q == [staging];
    if !base.Exists([staging]) {
      r := base.CreateDirAll([staging]);
      if r.Fail? {
        return;
      }
    }
    assert base.tree.dirs == b.dirs + {[staging]};
    r := ApplyStaged(session, base, changes, staging, b);
  }
}
